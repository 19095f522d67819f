/** Layered layout of a workflow graph: server/src/utils/workflow-layout.ts. */
module WorkflowLayout {
  import opened Options
  import opened Reachability
  import opened Discovery

  type Id = string

  const LAYER_GAP_Y := 150
  const NODE_GAP_X := 250
  const CENTER_X := 300

  datatype Position = Position(x: int, y: int)

  datatype Node = Node(id: Id, data: string, position: Position)

  datatype Edge = Edge(source: Id, target: Id)

  type Adjacency = map<Id, seq<Id>>
  type Layering = map<Id, nat>

  function Ids(nodes: seq<Node>): set<Id> {
    set i | 0 <= i < |nodes| :: nodes[i].id
  }

  /** The edges that leave a node of the graph; their targets may be dangling. */
  function Arcs(nodes: seq<Node>, edges: seq<Edge>): set<(Id, Id)> {
    set i | 0 <= i < |edges| && edges[i].source in Ids(nodes) :: (edges[i].source, edges[i].target)
  }

  // ---------------------------------------------------------------- adjacency

  /** adj lists the targets of every node. */
  ghost predicate Lists(adj: Adjacency, arcs: set<(Id, Id)>) {
    forall s, t :: (s, t) in arcs <==> s in adj && t in adj[s]
  }

  /** Each target once, in the order of the first edges to them. */
  ghost predicate TargetsInOrder(adj: Adjacency, edges: seq<Edge>) {
    forall s, j, k :: s in adj && 0 <= j < k < |adj[s]| ==>
      FirstAt(edges, Edge(s, adj[s][j])) < FirstAt(edges, Edge(s, adj[s][k])) < |edges|
  }

  method BuildAdjacency(nodes: seq<Node>, edges: seq<Edge>) returns (adj: Adjacency)
    ensures adj.Keys == Ids(nodes)
    ensures Lists(adj, Arcs(nodes, edges)) && TargetsInOrder(adj, edges)
  {
    adj := map[];
    var i := 0;
    while i < |nodes|
      invariant 0 <= i <= |nodes|
      invariant adj.Keys == set k | 0 <= k < i :: nodes[k].id
      invariant forall s :: s in adj ==> adj[s] == []
    {
      adj := adj[nodes[i].id := []];
      i := i + 1;
    }
    i := 0;
    assert edges[..0] == [];
    while i < |edges|
      invariant 0 <= i <= |edges|
      invariant adj.Keys == Ids(nodes)
      invariant Lists(adj, Arcs(nodes, edges[..i])) && TargetsInOrder(adj, edges[..i])
    {
      hide TargetsInOrder;
      ArcsNext(nodes, edges, i);
      var edge := edges[i];
      TargetsNext(nodes, edges, adj, i);
      if edge.source in adj && edge.target !in adj[edge.source] {
        adj := adj[edge.source := adj[edge.source] + [edge.target]];
      }
      i := i + 1;
    }
    assert edges[..|edges|] == edges;
  }

  lemma ArcsNext(nodes: seq<Node>, edges: seq<Edge>, i: nat)
    requires i < |edges|
    ensures Arcs(nodes, edges[..i + 1]) ==
            Arcs(nodes, edges[..i]) + (if edges[i].source in Ids(nodes) then {(edges[i].source, edges[i].target)} else {})
  {
  }

  lemma EdgeSeen(nodes: seq<Node>, edges: seq<Edge>, adj: Adjacency, i: nat, s: Id, t: Id)
    requires i < |edges| && adj.Keys == Ids(nodes) && Lists(adj, Arcs(nodes, edges[..i])) && s in adj && t in adj[s]
    ensures Edge(s, t) in edges[..i] && FirstAt(edges[..i + 1], Edge(s, t)) == FirstAt(edges[..i], Edge(s, t)) < i
  {
    assert (s, t) in Arcs(nodes, edges[..i]);
    var all := edges[..i];
    var k :| 0 <= k < i && all[k].source == s && all[k].target == t;
    assert all[k] == Edge(s, t);
    assert Edge(s, t) in all;
    assert edges[..i + 1] == all + [edges[i]];
    FirstStays(all, [edges[i]], Edge(s, t));
    assert FirstAt(all, Edge(s, t)) < |all|;
  }

  lemma TargetsKept(nodes: seq<Node>, edges: seq<Edge>, adj: Adjacency, i: nat)
    requires i < |edges| && adj.Keys == Ids(nodes) && Lists(adj, Arcs(nodes, edges[..i])) && TargetsInOrder(adj, edges[..i])
    ensures TargetsInOrder(adj, edges[..i + 1])
  {
    hide Lists, FirstAt;
    forall s, j, k | s in adj && 0 <= j < k < |adj[s]|
      ensures FirstAt(edges[..i + 1], Edge(s, adj[s][j])) < FirstAt(edges[..i + 1], Edge(s, adj[s][k])) < i + 1
    {
      EdgeSeen(nodes, edges, adj, i, s, adj[s][j]);
      EdgeSeen(nodes, edges, adj, i, s, adj[s][k]);
    }
  }

  lemma TargetsNext(nodes: seq<Node>, edges: seq<Edge>, adj: Adjacency, i: nat)
    requires i < |edges| && adj.Keys == Ids(nodes) && Lists(adj, Arcs(nodes, edges[..i])) && TargetsInOrder(adj, edges[..i])
    ensures TargetsInOrder(adj, edges[..i + 1])
    ensures var e := edges[i]; e.source in adj && e.target !in adj[e.source] ==>
              TargetsInOrder(adj[e.source := adj[e.source] + [e.target]], edges[..i + 1])
  {
    TargetsKept(nodes, edges, adj, i);
    var e := edges[i];
    if e.source in adj && e.target !in adj[e.source] {
      var row := adj[e.source];
      assert (e.source, e.target) !in Arcs(nodes, edges[..i]);
      assert e !in edges[..i];
      FirstIsLast(edges[..i], e);
      assert edges[..i + 1] == edges[..i] + [e];
      RowExtended(nodes, edges, adj, i);
    }
  }

  lemma RowExtended(nodes: seq<Node>, edges: seq<Edge>, adj: Adjacency, i: nat)
    requires i < |edges| && adj.Keys == Ids(nodes) && Lists(adj, Arcs(nodes, edges[..i])) && edges[i].source in adj
    requires TargetsInOrder(adj, edges[..i + 1]) && FirstAt(edges[..i + 1], edges[i]) == i
    ensures var e := edges[i]; TargetsInOrder(adj[e.source := adj[e.source] + [e.target]], edges[..i + 1])
  {
    hide Lists, FirstAt, Ids, Arcs;
    var e := edges[i];
    var adj', edges' := adj[e.source := adj[e.source] + [e.target]], edges[..i + 1];
    forall s, j, k | s in adj' && 0 <= j < k < |adj'[s]|
      ensures FirstAt(edges', Edge(s, adj'[s][j])) < FirstAt(edges', Edge(s, adj'[s][k])) < |edges'|
    {
      assert adj'[s][j] == adj[s][j];
      if k < |adj[s]| {
        assert adj'[s][k] == adj[s][k];
      } else {
        EdgeSeen(nodes, edges, adj, i, s, adj[s][j]);
        assert Edge(s, adj'[s][k]) == e;
      }
    }
    assert TargetsInOrder(adj', edges');
  }

  // ---------------------------------------------------------------- breadth-first layering

  ghost predicate Sound(arcs: set<(Id, Id)>, entry: Id, layer: Layering) {
    forall v :: v in layer ==> ReachesIn(arcs, entry, v, layer[v])
  }

  /** No arc out of `done` shortens the layering. */
  ghost predicate RelaxedFrom(arcs: set<(Id, Id)>, done: set<Id>, layer: Layering) {
    forall u, v :: (u, v) in arcs && u in done && u in layer ==> v in layer && layer[v] <= layer[u] + 1
  }

  /** The queue is ordered by layer, and holds at most the layers `low` and `low + 1`. */
  ghost predicate Ordered(queue: seq<Id>, layer: Layering, low: nat) {
    && (forall i :: 0 <= i < |queue| ==> queue[i] in layer && low <= layer[queue[i]])
    && (forall i, j :: 0 <= i < j < |queue| ==> queue[i] in layer && queue[j] in layer && layer[queue[i]] <= layer[queue[j]])
    && (forall v :: v in layer ==> layer[v] <= low + 1)
  }

  ghost predicate Search(arcs: set<(Id, Id)>, entry: Id, layer: Layering, order: seq<Id>, queue: seq<Id>,
                         done: set<Id>, low: nat) {
    && entry in layer && layer[entry] == 0
    && Visits(order, layer.Keys)
    && Sound(arcs, entry, layer)
    && Waiting(queue, done, layer.Keys)
    && Ordered(queue, layer, low)
  }

  /** Every id the search can meet. */
  function Universe(adj: Adjacency): set<Id> {
    adj.Keys + set s, t | s in adj && t in adj[s] :: t
  }

  lemma SearchStarts(arcs: set<(Id, Id)>, entry: Id)
    ensures Search(arcs, entry, map[entry := 0], [entry], [entry], {}, 0)
    ensures RelaxedFrom(arcs, {}, map[entry := 0])
  {
  }

  lemma SearchTakes(arcs: set<(Id, Id)>, entry: Id, layer: Layering, order: seq<Id>, queue: seq<Id>, done: set<Id>,
                    low: nat)
    requires queue != [] && Search(arcs, entry, layer, order, queue, done, low)
    ensures queue[0] in layer && queue[0] !in done
    ensures Search(arcs, entry, layer, order, queue[1..], done + {queue[0]}, layer[queue[0]])
  {
  }

  lemma SearchFinds(arcs: set<(Id, Id)>, entry: Id, layer: Layering, order: seq<Id>, queue: seq<Id>, done: set<Id>,
                    current: Id, target: Id)
    requires current in layer && Search(arcs, entry, layer, order, queue, done, layer[current])
    requires (current, target) in arcs && target !in layer
    ensures Search(arcs, entry, layer[target := layer[current] + 1], order + [target], queue + [target], done, layer[current])
  {
    hide ReachesIn;
    OneStepFurther(arcs, entry, current, target, layer[current]);
    WaitingAppend(queue, done, layer.Keys, target);
    assert layer[target := layer[current] + 1].Keys == layer.Keys + {target};
    hide Waiting;
  }

  lemma RelaxedGrows(arcs: set<(Id, Id)>, done: set<Id>, layer: Layering, target: Id, l: nat)
    requires RelaxedFrom(arcs, done, layer) && target !in layer && target !in done
    ensures RelaxedFrom(arcs, done, layer[target := l])
  {
  }

  /** The targets met so far are layered, none of them too deep. */
  ghost predicate Covered(targets: seq<Id>, n: nat, layer: Layering, low: nat)
    requires n <= |targets|
  {
    forall i :: 0 <= i < n ==> targets[i] in layer && layer[targets[i]] <= low + 1
  }

  /** What the loop over the targets of `current` keeps, after n of them. */
  ghost predicate Exploring(arcs: set<(Id, Id)>, entry: Id, layer: Layering, order: seq<Id>, queue: seq<Id>,
                            done: set<Id>,
                            current: Id, targets: seq<Id>, n: nat) {
    && current in layer && n <= |targets|
    && Search(arcs, entry, layer, order, queue, done + {current}, layer[current])
    && RelaxedFrom(arcs, done, layer)
    && Covered(targets, n, layer, layer[current])
  }

  /** One target of the node taken from the queue. */
  lemma ExploredNext(arcs: set<(Id, Id)>, entry: Id, layer: Layering, order: seq<Id>, queue: seq<Id>, done: set<Id>,
                     current: Id, targets: seq<Id>, n: nat)
    requires n < |targets| && Exploring(arcs, entry, layer, order, queue, done, current, targets, n)
    requires (current, targets[n]) in arcs
    ensures targets[n] in layer ==> Exploring(arcs, entry, layer, order, queue, done, current, targets, n + 1)
    ensures targets[n] !in layer ==>
              Exploring(arcs, entry, layer[targets[n] := layer[current] + 1], order + [targets[n]], queue + [targets[n]],
                        done, current, targets, n + 1)
  {
    hide Search, RelaxedFrom, Covered;
    var low := layer[current];
    if targets[n] in layer {
      CoveredAlready(arcs, entry, layer, order, queue, done + {current}, low, targets, n);
    } else {
      SearchFinds(arcs, entry, layer, order, queue, done + {current}, current, targets[n]);
      NotDone(arcs, entry, layer, order, queue, done + {current}, low, targets[n]);
      RelaxedGrows(arcs, done, layer, targets[n], low + 1);
      CoveredGrows(targets, n, layer, low, targets[n]);
    }
  }

  /** The queue is what is left of the order from its t-th node on, of whose targets n have been looked at. */
  ghost predicate Walking(adj: Adjacency, entry: Id, order: seq<Id>, found: seq<Place>, queue: seq<Id>, t: nat, n: nat) {
    && t < |order| && order[0] == entry && order[t + 1..] == queue && Found(adj, order, found, Place(t, n))
  }

  lemma WalkingNext(adj: Adjacency, entry: Id, order: seq<Id>, found: seq<Place>, queue: seq<Id>, t: nat, n: nat, v: Id)
    requires Walking(adj, entry, order, found, queue, t, n) && Leads(adj, order, Place(t, n), v)
    ensures v in order ==> Walking(adj, entry, order, found, queue, t, n + 1)
    ensures v !in order ==> Walking(adj, entry, order + [v], found + [Place(t, n)], queue + [v], t, n + 1)
  {
    hide Found;
    if v in order {
      FoundSkips(adj, order, found, Place(t, n), v);
    } else {
      FoundAdds(adj, order, found, Place(t, n), v);
      assert (order + [v])[t + 1..] == queue + [v];
    }
  }

  lemma WalkingEnds(adj: Adjacency, entry: Id, order: seq<Id>, found: seq<Place>, queue: seq<Id>, t: nat, n: nat)
    requires Walking(adj, entry, order, found, queue, t, n) && n == if order[t] in adj then |adj[order[t]]| else 0
    ensures Walked(adj, entry, order, found, queue, t + 1)
  {
    hide Found;
    FoundMovesOn(adj, order, found, Place(t, n));
  }

  /** The queue is what is left of the order from its t-th node on. */
  ghost predicate Walked(adj: Adjacency, entry: Id, order: seq<Id>, found: seq<Place>, queue: seq<Id>, t: nat) {
    && t <= |order| && order != [] && order[0] == entry && order[t..] == queue && Found(adj, order, found, Place(t, 0))
  }

  lemma WalkedNext(adj: Adjacency, entry: Id, order: seq<Id>, found: seq<Place>, queue: seq<Id>, t: nat)
    requires Walked(adj, entry, order, found, queue, t) && queue != []
    ensures t < |order| && order[t] == queue[0] && Walking(adj, entry, order, found, queue[1..], t, 0)
  {
    hide Found;
    assert order[t..][1..] == order[t + 1..];
  }

  lemma WalkedAll(adj: Adjacency, entry: Id, order: seq<Id>, found: seq<Place>, t: nat)
    requires Walked(adj, entry, order, found, [], t)
    ensures order != [] && order[0] == entry && Discovered(adj, order)
  {
    hide Found;
    assert |order[t..]| == |order| - t;
    assert Found(adj, order, found, Place(|order|, 0));
  }

  lemma KnownIff(arcs: set<(Id, Id)>, entry: Id, layer: Layering, order: seq<Id>, queue: seq<Id>, done: set<Id>, low: nat, v: Id)
    requires Search(arcs, entry, layer, order, queue, done, low)
    ensures v in layer <==> v in order
  {
  }

  /** The loop over the targets of one node, the t-th of the order. */
  method Explore(adj: Adjacency, current: Id, layer: Layering, order: seq<Id>, queue: seq<Id>,
                 ghost arcs: set<(Id, Id)>, ghost entry: Id, ghost done: set<Id>, ghost found: seq<Place>, ghost t: nat)
    returns (layer': Layering, order': seq<Id>, queue': seq<Id>, ghost found': seq<Place>)
    requires Lists(adj, arcs) && current in layer && layer.Keys <= Universe(adj)
    requires Search(arcs, entry, layer, order, queue, done + {current}, layer[current]) && RelaxedFrom(arcs, done, layer)
    requires Walking(adj, entry, order, found, queue, t, 0) && order[t] == current
    ensures current in layer' && layer'[current] == layer[current] && layer'.Keys <= Universe(adj)
    ensures Search(arcs, entry, layer', order', queue', done + {current}, layer[current])
    ensures RelaxedFrom(arcs, done + {current}, layer')
    ensures Walked(adj, entry, order', found', queue', t + 1)
  {
    hide Search, RelaxedFrom, Covered, Lists, Universe, Exploring, Found;
    layer', order', queue', found' := layer, order, queue, found;
    var currentLayer := layer[current];
    var targets := if current in adj then adj[current] else [];
    ExploringStarts(arcs, entry, layer, order, queue, done, current, targets);
    var i := 0;
    while i < |targets|
      invariant 0 <= i <= |targets|
      invariant current in layer' && layer'[current] == currentLayer && layer'.Keys <= Universe(adj)
      invariant Exploring(arcs, entry, layer', order', queue', done, current, targets, i)
      invariant Walking(adj, entry, order', found', queue', t, i) && order'[t] == current
    {
      var target := targets[i];
      TargetArc(adj, arcs, current, i);
      ExploredNext(arcs, entry, layer', order', queue', done, current, targets, i);
      KnownWhileExploring(arcs, entry, layer', order', queue', done, current, targets, i, target);
      WalkingNext(adj, entry, order', found', queue', t, i, target);
      if target !in layer' {
        layer' := layer'[target := currentLayer + 1];
        queue' := queue' + [target];
        order' := order' + [target];
        found' := found' + [Place(t, i)];
      }
      i := i + 1;
    }
    ExploringEnds(arcs, adj, entry, layer', order', queue', done, current, targets);
    WalkingEnds(adj, entry, order', found', queue', t, i);
  }

  lemma KnownWhileExploring(arcs: set<(Id, Id)>, entry: Id, layer: Layering, order: seq<Id>, queue: seq<Id>, done: set<Id>,
                            current: Id, targets: seq<Id>, n: nat, v: Id)
    requires Exploring(arcs, entry, layer, order, queue, done, current, targets, n)
    ensures v in layer <==> v in order
  {
    hide Search, RelaxedFrom, Covered;
    KnownIff(arcs, entry, layer, order, queue, done + {current}, layer[current], v);
  }

  lemma ExploringStarts(arcs: set<(Id, Id)>, entry: Id, layer: Layering, order: seq<Id>, queue: seq<Id>, done: set<Id>,
                        current: Id, targets: seq<Id>)
    requires current in layer && RelaxedFrom(arcs, done, layer)
    requires Search(arcs, entry, layer, order, queue, done + {current}, layer[current])
    ensures Exploring(arcs, entry, layer, order, queue, done, current, targets, 0)
  {
  }

  lemma ExploringEnds(arcs: set<(Id, Id)>, adj: Adjacency, entry: Id, layer: Layering, order: seq<Id>, queue: seq<Id>,
                      done: set<Id>, current: Id, targets: seq<Id>)
    requires Lists(adj, arcs) && targets == (if current in adj then adj[current] else [])
    requires Exploring(arcs, entry, layer, order, queue, done, current, targets, |targets|)
    ensures Search(arcs, entry, layer, order, queue, done + {current}, layer[current])
    ensures RelaxedFrom(arcs, done + {current}, layer)
  {
  }

  /** `order` lists the keys of `layer` in the order in which they were set. */
  method AssignLayers(adj: Adjacency, entry: Id, ghost arcs: set<(Id, Id)>) returns (layer: Layering, order: seq<Id>)
    requires Lists(adj, arcs)
    ensures Visits(order, layer.Keys)
    ensures entry in adj ==> Relaxed(arcs, entry, layer) && Sound(arcs, entry, layer)
    ensures entry in adj ==> order != [] && order[0] == entry && Discovered(adj, order)
    ensures entry !in adj ==> layer == map[]
  {
    layer, order := map[], [];
    if entry in adj {
      hide Search, RelaxedFrom, Lists, Visits, Sound, Relaxed, Universe, Found, Discovered;
      var queue := [entry];
      layer, order := map[entry := 0], [entry];
      ghost var done: set<Id> := {};
      ghost var low := 0;
      ghost var found := [Place(0, 0)];
      ghost var t := 0;
      SearchStarts(arcs, entry);
      FoundStarts(adj, entry);
      KeyInUniverse(adj, entry);
      while queue != []
        invariant Search(arcs, entry, layer, order, queue, done, low)
        invariant RelaxedFrom(arcs, done, layer)
        invariant layer.Keys <= Universe(adj)
        invariant Walked(adj, entry, order, found, queue, t)
        decreases Universe(adj) - done
      {
        var current := queue[0];
        SearchTakes(arcs, entry, layer, order, queue, done, low);
        WalkedNext(adj, entry, order, found, queue, t);
        low := layer[current];
        layer, order, queue, found := Explore(adj, current, layer, order, queue[1..], arcs, entry, done, found, t);
        done, t := done + {current}, t + 1;
      }
      SearchEnds(arcs, entry, layer, order, done, low);
      WalkedAll(adj, entry, order, found, t);
    }
  }

  lemma KeyInUniverse(adj: Adjacency, entry: Id)
    requires entry in adj
    ensures entry in Universe(adj)
  {
  }

  lemma TargetArc(adj: Adjacency, arcs: set<(Id, Id)>, current: Id, i: nat)
    requires Lists(adj, arcs) && current in adj && i < |adj[current]|
    ensures (current, adj[current][i]) in arcs && adj[current][i] in Universe(adj)
  {
  }

  lemma NotDone(arcs: set<(Id, Id)>, entry: Id, layer: Layering, order: seq<Id>, queue: seq<Id>, done: set<Id>,
                low: nat, target: Id)
    requires Search(arcs, entry, layer, order, queue, done, low) && target !in layer
    ensures target !in done
  {
  }

  lemma CoveredGrows(targets: seq<Id>, i: nat, layer: Layering, low: nat, target: Id)
    requires i < |targets| && Covered(targets, i, layer, low) && target == targets[i]
    ensures Covered(targets, i + 1, layer[target := low + 1], low)
  {
  }

  lemma CoveredAlready(arcs: set<(Id, Id)>, entry: Id, layer: Layering, order: seq<Id>, queue: seq<Id>, done: set<Id>,
                       low: nat,
                       targets: seq<Id>, i: nat)
    requires Search(arcs, entry, layer, order, queue, done, low)
    requires i < |targets| && Covered(targets, i, layer, low) && targets[i] in layer
    ensures Covered(targets, i + 1, layer, low)
  {
  }

  lemma SearchEnds(arcs: set<(Id, Id)>, entry: Id, layer: Layering, order: seq<Id>, done: set<Id>, low: nat)
    requires Search(arcs, entry, layer, order, [], done, low) && RelaxedFrom(arcs, done, layer)
    ensures Visits(order, layer.Keys) && Relaxed(arcs, entry, layer) && Sound(arcs, entry, layer)
  {
  }

  // ---------------------------------------------------------------- the unreachable nodes

  ghost predicate IsDeepest(layer: Layering, deepest: nat) {
    && (forall v :: v in layer ==> layer[v] <= deepest)
    && (deepest == 0 || exists v :: v in layer && layer[v] == deepest)
  }

  method DeepestLayer(layer: Layering, order: seq<Id>) returns (deepest: nat)
    requires Visits(order, layer.Keys)
    ensures IsDeepest(layer, deepest)
  {
    deepest := 0;
    var i := 0;
    while i < |order|
      invariant 0 <= i <= |order|
      invariant forall j :: 0 <= j < i ==> layer[order[j]] <= deepest
      invariant deepest == 0 || exists v :: v in layer && layer[v] == deepest
    {
      if layer[order[i]] > deepest {
        deepest := layer[order[i]];
      }
      i := i + 1;
    }
  }

  /** The nodes without a layer are put below the others. */
  function Completed(layer: Layering, ids: set<Id>, bottom: nat): Layering {
    map v | v in layer.Keys + ids :: if v in layer then layer[v] else bottom
  }

  /** layer' and order' are what i rounds of the loop below make of layer. */
  ghost predicate Filled(nodes: seq<Node>, layer: Layering, bottom: nat, i: nat, layer': Layering, order': seq<Id>)
    requires i <= |nodes|
  {
    layer' == Completed(layer, Ids(nodes[..i]), bottom) && Visits(order', layer'.Keys)
  }

  function NodeIds(nodes: seq<Node>): (ids: seq<Id>)
    ensures |ids| == |nodes|
  {
    seq(|nodes|, i requires 0 <= i < |nodes| => nodes[i].id)
  }

  /** The nodes that were missing come after the others, in the order they have in the first i. */
  ghost predicate Appended(nodes: seq<Node>, order: seq<Id>, i: nat, order': seq<Id>)
    requires i <= |nodes|
  {
    && order <= order' && ByFirst(order'[|order|..], NodeIds(nodes)[..i])
    && forall k :: 0 <= k < i ==> nodes[k].id in order'
  }

  lemma AppendedNone(nodes: seq<Node>, order: seq<Id>)
    ensures Appended(nodes, order, 0, order)
  {
  }

  lemma AppendedNext(nodes: seq<Node>, order: seq<Id>, i: nat, order': seq<Id>)
    requires i < |nodes| && Appended(nodes, order, i, order')
    ensures var v := nodes[i].id;
            Appended(nodes, order, i + 1, if v in order' then order' else order' + [v])
  {
    hide FirstAt;
    var all, v := NodeIds(nodes), nodes[i].id;
    assert all[..i + 1] == all[..i] + [v];
    var rest := order'[|order|..];
    RowStays(rest, all[..i], [v]);
    if v !in order' {
      assert v !in all[..i];
      FirstIsLast(all[..i], v);
      assert (order' + [v])[|order|..] == rest + [v];
      RowGrows(rest, all[..i], v);
    }
  }

  lemma FilledNone(nodes: seq<Node>, layer: Layering, bottom: nat, order: seq<Id>)
    requires Visits(order, layer.Keys)
    ensures Filled(nodes, layer, bottom, 0, layer, order)
  {
    assert Ids(nodes[..0]) == {};
  }

  lemma FilledNext(nodes: seq<Node>, layer: Layering, bottom: nat, i: nat, layer': Layering, order': seq<Id>)
    requires i < |nodes| && Filled(nodes, layer, bottom, i, layer', order')
    ensures var v := nodes[i].id;
            if v in layer' then Filled(nodes, layer, bottom, i + 1, layer', order')
            else Filled(nodes, layer, bottom, i + 1, layer'[v := bottom], order' + [v])
  {
    hide Visits, Ids;
    IdsNext(nodes, i);
    var v := nodes[i].id;
    if v !in layer' {
      VisitsMore(order', layer'.Keys, v);
      assert layer'[v := bottom].Keys == layer'.Keys + {v};
    }
  }

  lemma VisitsMore(order: seq<Id>, ids: set<Id>, v: Id)
    requires Visits(order, ids) && v !in ids
    ensures Visits(order + [v], ids + {v})
  {
  }

  method AddUnreachable(nodes: seq<Node>, layer: Layering, order: seq<Id>, bottom: nat)
    returns (layer': Layering, order': seq<Id>)
    requires Visits(order, layer.Keys)
    ensures layer' == Completed(layer, Ids(nodes), bottom) && Visits(order', layer'.Keys)
    ensures order <= order' && ByFirst(order'[|order|..], NodeIds(nodes))
  {
    hide Filled, Appended, Completed, ByFirst, Visits, NodeIds;
    layer', order' := layer, order;
    FilledNone(nodes, layer, bottom, order);
    AppendedNone(nodes, order);
    var i := 0;
    while i < |nodes|
      invariant 0 <= i <= |nodes| && Filled(nodes, layer, bottom, i, layer', order')
      invariant Appended(nodes, order, i, order')
    {
      FilledNext(nodes, layer, bottom, i, layer', order');
      AppendedNext(nodes, order, i, order');
      FilledKnown(nodes, layer, bottom, i, layer', order', nodes[i].id);
      if nodes[i].id !in layer' {
        layer', order' := layer'[nodes[i].id := bottom], order' + [nodes[i].id];
      }
      i := i + 1;
    }
    FilledAll(nodes, layer, bottom, order, layer', order');
  }

  lemma FilledAll(nodes: seq<Node>, layer: Layering, bottom: nat, order: seq<Id>, layer': Layering, order': seq<Id>)
    requires Filled(nodes, layer, bottom, |nodes|, layer', order') && Appended(nodes, order, |nodes|, order')
    ensures layer' == Completed(layer, Ids(nodes), bottom) && Visits(order', layer'.Keys)
    ensures order <= order' && ByFirst(order'[|order|..], NodeIds(nodes))
  {
    hide Visits, ByFirst;
    assert nodes[..|nodes|] == nodes && NodeIds(nodes)[..|nodes|] == NodeIds(nodes);
  }

  lemma FilledKnown(nodes: seq<Node>, layer: Layering, bottom: nat, i: nat, layer': Layering, order': seq<Id>, v: Id)
    requires i <= |nodes| && Filled(nodes, layer, bottom, i, layer', order')
    ensures v in layer' <==> v in order'
  {
  }

  lemma IdsNext(nodes: seq<Node>, i: nat)
    requires i < |nodes|
    ensures Ids(nodes[..i + 1]) == Ids(nodes[..i]) + {nodes[i].id}
  {
  }

  // ---------------------------------------------------------------- positions

  /** The ids of one layer, in order. */
  function InLayer(order: seq<Id>, layer: Layering, l: nat): seq<Id> {
    if order == [] then []
    else InLayer(order[..|order| - 1], layer, l) +
         (if order[|order| - 1] in layer && layer[order[|order| - 1]] == l then [order[|order| - 1]] else [])
  }

  lemma {:induction false} InLayerMembers(order: seq<Id>, layer: Layering, l: nat)
    requires forall i, j :: 0 <= i < j < |order| ==> order[i] != order[j]
    ensures var row := InLayer(order, layer, l);
            && (forall v :: v in row <==> v in order && v in layer && layer[v] == l)
            && (forall i, j :: 0 <= i < j < |row| ==> row[i] != row[j])
  {
    if order != [] {
      var last := order[|order| - 1];
      InLayerMembers(order[..|order| - 1], layer, l);
      assert forall v :: v in order <==> v == last || v in order[..|order| - 1];
    }
  }

  /** The i-th of `count` positions of a layer, centred around CENTER_X. */
  function Slot(count: nat, i: nat, l: nat): Position
    requires i < count
  {
    Position(CENTER_X - (count - 1) * NODE_GAP_X / 2 + i * NODE_GAP_X, l * LAYER_GAP_Y)
  }

  /** Slots of one layer lie symmetrically around the centre, a gap apart. */
  lemma SlotsCentred(count: nat, i: nat, l: nat)
    requires i < count
    ensures Slot(count, i, l).x + Slot(count, count - 1 - i, l).x == 2 * CENTER_X
    ensures i + 1 < count ==> Slot(count, i + 1, l).x == Slot(count, i, l).x + NODE_GAP_X
  {
    assert (count - 1) * NODE_GAP_X / 2 == (count - 1) * 125;
  }

  /** The rows hold the ids of their layers among the first i. */
  ghost predicate Grouped(layer: Layering, order: seq<Id>, i: nat, layers: map<nat, seq<Id>>)
    requires i <= |order| && forall k :: 0 <= k < |order| ==> order[k] in layer
  {
    && (forall l :: InLayer(order[..i], layer, l) == if l in layers then layers[l] else [])
    && (forall l :: l in layers ==> layers[l] != [])
  }

  lemma GroupedNext(layer: Layering, order: seq<Id>, i: nat, layers: map<nat, seq<Id>>)
    requires i < |order| && forall k :: 0 <= k < |order| ==> order[k] in layer
    requires Grouped(layer, order, i, layers)
    ensures var l := layer[order[i]];
            Grouped(layer, order, i + 1, layers[l := (if l in layers then layers[l] else []) + [order[i]]])
  {
    var l := layer[order[i]];
    var layers' := layers[l := (if l in layers then layers[l] else []) + [order[i]]];
    forall k ensures InLayer(order[..i + 1], layer, k) == if k in layers' then layers'[k] else [] {
      assert order[..i + 1][..i] == order[..i];
      assert InLayer(order[..i], layer, k) == if k in layers then layers[k] else [];
    }
  }

  lemma GroupedAll(layer: Layering, order: seq<Id>, layers: map<nat, seq<Id>>)
    requires forall k :: 0 <= k < |order| ==> order[k] in layer
    requires Grouped(layer, order, |order|, layers)
    ensures forall l :: InLayer(order, layer, l) == if l in layers then layers[l] else []
    ensures forall l :: l in layers ==> layers[l] != []
  {
    assert order[..|order|] == order;
  }

  lemma GroupedNone(layer: Layering, order: seq<Id>)
    requires forall k :: 0 <= k < |order| ==> order[k] in layer
    ensures Grouped(layer, order, 0, map[])
  {
  }

  method GroupByLayer(layer: Layering, order: seq<Id>) returns (layers: map<nat, seq<Id>>)
    requires forall i :: 0 <= i < |order| ==> order[i] in layer
    ensures forall l :: InLayer(order, layer, l) == if l in layers then layers[l] else []
    ensures forall l :: l in layers ==> layers[l] != []
  {
    hide Grouped, InLayer;
    layers := map[];
    GroupedNone(layer, order);
    var i := 0;
    while i < |order|
      invariant 0 <= i <= |order| && Grouped(layer, order, i, layers)
    {
      GroupedNext(layer, order, i, layers);
      ghost var before := layers;
      var l := layer[order[i]];
      if l !in layers {
        layers := layers[l := []];
      }
      layers := layers[l := layers[l] + [order[i]]];
      assert layers == before[l := (if l in before then before[l] else []) + [order[i]]];
      i := i + 1;
    }
    GroupedAll(layer, order, layers);
  }

  /** Every id of the rows in `done` has its slot. */
  ghost predicate Placed(positions: map<Id, Position>, layers: map<nat, seq<Id>>, done: set<nat>) {
    forall l, i :: l in done && l in layers && 0 <= i < |layers[l]| ==>
      layers[l][i] in positions && positions[layers[l][i]] == Slot(|layers[l]|, i, l)
  }

  /** No id occurs twice in the rows. */
  ghost predicate DistinctRows(layers: map<nat, seq<Id>>) {
    forall l, i, k, j :: l in layers && 0 <= i < |layers[l]| && k in layers && 0 <= j < |layers[k]| && layers[l][i] == layers[k][j] ==>
      l == k && i == j
  }

  method PlaceRow(positions: map<Id, Position>, layers: map<nat, seq<Id>>, l: nat, ghost done: set<nat>)
    returns (positions': map<Id, Position>)
    requires DistinctRows(layers) && l in layers && l !in done && Placed(positions, layers, done)
    ensures Placed(positions', layers, done + {l})
  {
    var nodeIds := layers[l];
    var count := |nodeIds|;
    positions' := positions;
    var i := 0;
    while i < count
      invariant 0 <= i <= count
      invariant Placed(positions', layers, done)
      invariant forall j :: 0 <= j < i ==> nodeIds[j] in positions' && positions'[nodeIds[j]] == Slot(count, j, l)
    {
      assert forall j :: 0 <= j < i ==> nodeIds[j] != nodeIds[i];
      positions' := positions'[nodeIds[i] := Position(CENTER_X - (count - 1) * NODE_GAP_X / 2 + i * NODE_GAP_X, l * LAYER_GAP_Y)];
      i := i + 1;
    }
  }

  method PlaceRows(layers: map<nat, seq<Id>>) returns (positions: map<Id, Position>)
    requires DistinctRows(layers)
    ensures Placed(positions, layers, layers.Keys)
  {
    positions := map[];
    var rest := layers.Keys;
    while rest != {}
      invariant rest <= layers.Keys
      invariant Placed(positions, layers, layers.Keys - rest)
      decreases rest
    {
      var l :| l in rest;
      positions := PlaceRow(positions, layers, l, layers.Keys - rest);
      assert layers.Keys - (rest - {l}) == layers.Keys - rest + {l};
      rest := rest - {l};
    }
    assert layers.Keys - rest == layers.Keys;
  }

  // ---------------------------------------------------------------- the layout

  ghost predicate Reached(nodes: seq<Node>, edges: seq<Edge>, entry: Id, v: Id) {
    entry in Ids(nodes) && Reachable(Arcs(nodes, edges), entry, v)
  }

  /** The node's slot: its rank among the ids of its layer. */
  ghost predicate HasSlot(position: Position, order: seq<Id>, layer: Layering, v: Id) {
    exists i :: v in layer && 0 <= i < |InLayer(order, layer, layer[v])| && InLayer(order, layer, layer[v])[i] == v
                && position == Slot(|InLayer(order, layer, layer[v])|, i, layer[v])
  }

  /** Distances for what the entry reaches, the layer below them for every other node. */
  ghost predicate Layers(nodes: seq<Node>, edges: seq<Edge>, entry: Id, layer: Layering) {
    && Ids(nodes) <= layer.Keys
    && (forall v :: v in layer && Reached(nodes, edges, entry, v) ==> Distance(Arcs(nodes, edges), entry, v, layer[v]))
    && (forall v, w :: v in layer && w in layer && !Reached(nodes, edges, entry, v) ==>
          if Reached(nodes, edges, entry, w) then layer[w] < layer[v] else layer[w] == layer[v])
    && (forall v :: v in layer && !Reached(nodes, edges, entry, v) ==>
          layer[v] == 1 || exists w :: w in layer && Reached(nodes, edges, entry, w) && layer[w] + 1 == layer[v])
    && (forall v :: Reached(nodes, edges, entry, v) ==> v in layer)
  }

  /**
   * The order in which the loop meets the nodes: what the entry reaches breadth first, each node's targets in the order of
   * the edges to them, and then the other nodes as they are listed.
   */
  ghost predicate FollowsDiscovery(nodes: seq<Node>, edges: seq<Edge>, entry: Id, order: seq<Id>) {
    exists adj, n :: OrderedBy(nodes, edges, entry, order, adj, n)
  }

  ghost predicate OrderedBy(nodes: seq<Node>, edges: seq<Edge>, entry: Id, order: seq<Id>, adj: Adjacency, n: nat) {
    && adj.Keys == Ids(nodes) && Lists(adj, Arcs(nodes, edges)) && TargetsInOrder(adj, edges)
    && n <= |order|
    && (if entry in Ids(nodes) then n > 0 && order[0] == entry && Discovered(adj, order[..n]) else n == 0)
    && ByFirst(order[n..], NodeIds(nodes))
  }

  lemma DiscoveryHolds(nodes: seq<Node>, edges: seq<Edge>, entry: Id, adj: Adjacency, keys: seq<Id>, order: seq<Id>)
    requires adj.Keys == Ids(nodes) && Lists(adj, Arcs(nodes, edges)) && TargetsInOrder(adj, edges)
    requires if entry in adj then keys != [] && keys[0] == entry && Discovered(adj, keys) else keys == []
    requires keys <= order && ByFirst(order[|keys|..], NodeIds(nodes))
    ensures FollowsDiscovery(nodes, edges, entry, order)
  {
    hide Lists, Arcs, TargetsInOrder, Discovered, ByFirst, NodeIds;
    assert order[..|keys|] == keys;
    assert OrderedBy(nodes, edges, entry, order, adj, |keys|);
  }

  /** Within a row, the order is kept. */
  lemma {:induction false} RowKeepsOrder(order: seq<Id>, layer: Layering, l: nat)
    requires forall i, j :: 0 <= i < j < |order| ==> order[i] != order[j]
    ensures ByFirst(InLayer(order, layer, l), order)
  {
    if order != [] {
      var n := |order| - 1;
      var before := order[..n];
      RowKeepsOrder(before, layer, l);
      assert order == before + [order[n]];
      hide FirstAt;
      RowStays(InLayer(before, layer, l), before, [order[n]]);
      assert order[n] !in before;
      RowGrows(InLayer(before, layer, l), before, order[n]);
    }
  }

  lemma RowRank(row: seq<Id>, order: seq<Id>, i: nat, j: nat)
    requires i < |row| && j < |row| && ByFirst(row, order) && FirstAt(order, row[i]) < FirstAt(order, row[j])
    ensures i < j
  {
    hide FirstAt;
  }

  lemma SlotsAscend(count: nat, i: nat, j: nat, l: nat)
    requires i < j < count
    ensures Slot(count, i, l).x < Slot(count, j, l).x
  {
  }

  /** Of two ids in one layer, the one met first is further to the left. */
  lemma LeftToRight(order: seq<Id>, layer: Layering, p: Position, v: Id, q: Position, w: Id)
    requires Visits(order, layer.Keys) && HasSlot(p, order, layer, v) && HasSlot(q, order, layer, w)
    requires layer[v] == layer[w] && FirstAt(order, v) < FirstAt(order, w)
    ensures p.x < q.x
  {
    hide FirstAt, InLayer, ByFirst, Slot;
    var l := layer[v];
    var row := InLayer(order, layer, l);
    RowKeepsOrder(order, layer, l);
    var i :| 0 <= i < |row| && row[i] == v && p == Slot(|row|, i, l);
    var j :| 0 <= j < |row| && row[j] == w && q == Slot(|row|, j, l);
    RowRank(row, order, i, j);
    SlotsAscend(|row|, i, j, l);
  }

  lemma LayersHold(nodes: seq<Node>, edges: seq<Edge>, entry: Id, layer: Layering, deepest: nat)
    requires entry in Ids(nodes) ==> Relaxed(Arcs(nodes, edges), entry, layer) && Sound(Arcs(nodes, edges), entry, layer)
    requires entry !in Ids(nodes) ==> layer == map[]
    requires IsDeepest(layer, deepest)
    ensures Layers(nodes, edges, entry, Completed(layer, Ids(nodes), deepest + 1))
  {
    hide IsDeepest, Completed, Layers, Arcs, Ids;
    if entry in Ids(nodes) { LayersAreDistances(Arcs(nodes, edges), entry, layer); }
    hide ReachesIn, Reachable, Distance;
    assert forall v :: Reached(nodes, edges, entry, v) <==> v in layer;
    LayersOf(nodes, edges, entry, layer, deepest);
  }

  lemma LayersOf(nodes: seq<Node>, edges: seq<Edge>, entry: Id, layer: Layering, deepest: nat)
    requires forall v :: Reached(nodes, edges, entry, v) <==> v in layer
    requires forall v :: v in layer ==> Distance(Arcs(nodes, edges), entry, v, layer[v])
    requires IsDeepest(layer, deepest)
    ensures Layers(nodes, edges, entry, Completed(layer, Ids(nodes), deepest + 1))
  {
    hide Reached, Distance, Arcs, Ids;
    if deepest > 0 {
      var w :| w in layer && layer[w] == deepest;
      assert Completed(layer, Ids(nodes), deepest + 1)[w] == deepest;
    }
  }

  lemma RowsDistinct(order: seq<Id>, layer: Layering, layers: map<nat, seq<Id>>)
    requires Visits(order, layer.Keys)
    requires forall l :: InLayer(order, layer, l) == if l in layers then layers[l] else []
    ensures DistinctRows(layers)
  {
    forall l { InLayerMembers(order, layer, l); }
    forall l, i, k, j | l in layers && 0 <= i < |layers[l]| && k in layers && 0 <= j < |layers[k]| && layers[l][i] == layers[k][j]
      ensures l == k && i == j
    {
      assert layers[l] == InLayer(order, layer, l) && layers[k] == InLayer(order, layer, k);
      assert layers[l][i] in InLayer(order, layer, l) && layers[k][j] in InLayer(order, layer, k);
    }
  }

  lemma SlotOf(order: seq<Id>, layer: Layering, layers: map<nat, seq<Id>>, positions: map<Id, Position>, v: Id)
    requires Visits(order, layer.Keys) && v in layer
    requires forall l :: InLayer(order, layer, l) == if l in layers then layers[l] else []
    requires Placed(positions, layers, layers.Keys)
    ensures v in positions && HasSlot(positions[v], order, layer, v)
  {
    var l := layer[v];
    InLayerMembers(order, layer, l);
    var i :| 0 <= i < |InLayer(order, layer, l)| && InLayer(order, layer, l)[i] == v;
    assert layers[l][i] == v;
  }

  /**
   * autoLayoutGraph.  A reachable node's layer is its distance from the entry, whatever cycles and dangling targets
   * the graph has; the unreachable nodes share one layer below; and no two ids get the same position.
   */
  method AutoLayoutGraph(nodes: seq<Node>, edges: seq<Edge>, entry: Id)
    returns (placed: seq<Node>, ghost order: seq<Id>, ghost layer: Layering)
    ensures |placed| == |nodes|
    ensures forall i :: 0 <= i < |nodes| ==> placed[i].id == nodes[i].id && placed[i].data == nodes[i].data
    ensures Layers(nodes, edges, entry, layer) && Visits(order, layer.Keys)
    ensures FollowsDiscovery(nodes, edges, entry, order)
    ensures forall i :: 0 <= i < |nodes| ==> HasSlot(placed[i].position, order, layer, nodes[i].id)
    ensures forall i, j | 0 <= i < |nodes| && 0 <= j < |nodes| && FirstAt(order, nodes[i].id) < FirstAt(order, nodes[j].id) ::
              placed[i].position.y == placed[j].position.y ==> placed[i].position.x < placed[j].position.x
    ensures forall i, d: nat :: 0 <= i < |nodes| && entry in Ids(nodes) && Distance(Arcs(nodes, edges), entry, nodes[i].id, d) ==>
              placed[i].position.y == d * LAYER_GAP_Y
    ensures forall i, j :: 0 <= i < |nodes| && 0 <= j < |nodes| && !Reached(nodes, edges, entry, nodes[i].id) ==>
              if Reached(nodes, edges, entry, nodes[j].id) then placed[j].position.y < placed[i].position.y
              else placed[j].position.y == placed[i].position.y
    ensures forall i, j :: 0 <= i < |nodes| && 0 <= j < |nodes| && nodes[i].id != nodes[j].id ==>
              placed[i].position != placed[j].position
  {
    hide InLayer, Layers, Arcs, Completed, Visits, HasSlot, Placed, DistinctRows, Discovered, ByFirst, FollowsDiscovery, FirstAt,
         Lists, TargetsInOrder, NodeIds;
    var adj := BuildAdjacency(nodes, edges);
    var found, keys := AssignLayers(adj, entry, Arcs(nodes, edges));
    var deepest := DeepestLayer(found, keys);
    LayersHold(nodes, edges, entry, found, deepest);
    ghost var reached := keys;
    FoundNone(found, keys);
    var layerMap;
    layerMap, keys := AddUnreachable(nodes, found, keys, deepest + 1);
    DiscoveryHolds(nodes, edges, entry, adj, reached, keys);
    VisitsWithin(keys, layerMap.Keys);
    var layers := GroupByLayer(layerMap, keys);
    RowsDistinct(keys, layerMap, layers);
    var positionMap := PlaceRows(layers);
    order, layer := keys, layerMap;
    NodesLayered(nodes, edges, entry, layer);
    forall v | v in layer ensures v in positionMap && HasSlot(positionMap[v], order, layer, v) {
      SlotOf(order, layer, layers, positionMap, v);
    }
    placed := seq(|nodes|, i requires 0 <= i < |nodes| =>
      nodes[i].(position := if nodes[i].id in positionMap then positionMap[nodes[i].id] else nodes[i].position));
    Consequences(nodes, edges, entry, order, layer, placed);
    RowsLeftToRight(nodes, order, layer, placed);
  }

  lemma FoundNone(layer: Layering, order: seq<Id>)
    requires Visits(order, layer.Keys)
    ensures layer == map[] ==> order == []
  {
    if order != [] { assert order[0] in layer.Keys; }
  }

  lemma RowsLeftToRight(nodes: seq<Node>, order: seq<Id>, layer: Layering, placed: seq<Node>)
    requires |placed| == |nodes| && Visits(order, layer.Keys)
    requires forall i :: 0 <= i < |nodes| ==> HasSlot(placed[i].position, order, layer, nodes[i].id)
    ensures forall i, j | 0 <= i < |nodes| && 0 <= j < |nodes| && FirstAt(order, nodes[i].id) < FirstAt(order, nodes[j].id) ::
              placed[i].position.y == placed[j].position.y ==> placed[i].position.x < placed[j].position.x
  {
    hide FirstAt, InLayer, Visits;
    forall i, j | 0 <= i < |nodes| && 0 <= j < |nodes| && placed[i].position.y == placed[j].position.y &&
                  FirstAt(order, nodes[i].id) < FirstAt(order, nodes[j].id)
      ensures placed[i].position.x < placed[j].position.x
    {
      LeftToRight(order, layer, placed[i].position, nodes[i].id, placed[j].position, nodes[j].id);
    }
  }

  lemma VisitsWithin(order: seq<Id>, keys: set<Id>)
    requires Visits(order, keys)
    ensures forall i :: 0 <= i < |order| ==> order[i] in keys
  {
  }

  lemma NodesLayered(nodes: seq<Node>, edges: seq<Edge>, entry: Id, layer: Layering)
    requires Layers(nodes, edges, entry, layer)
    ensures forall i :: 0 <= i < |nodes| ==> nodes[i].id in layer
  {
  }

  /** A slot shows its layer. */
  lemma SlotShows(p: Position, order: seq<Id>, layer: Layering, v: Id)
    requires HasSlot(p, order, layer, v)
    ensures v in layer && p.y == layer[v] * LAYER_GAP_Y
  {
    hide InLayer;
  }

  lemma DistanceShown(nodes: seq<Node>, edges: seq<Edge>, entry: Id, layer: Layering, v: Id, d: nat)
    requires Layers(nodes, edges, entry, layer) && v in layer
    requires entry in Ids(nodes) && Distance(Arcs(nodes, edges), entry, v, d)
    ensures layer[v] == d
  {
    hide Arcs, Ids;
    assert Reached(nodes, edges, entry, v);
    hide ReachesIn, Reached, Reachable;
  }

  lemma SlotsDiffer(order: seq<Id>, layer: Layering, p: Position, v: Id, q: Position, w: Id)
    requires Visits(order, layer.Keys) && HasSlot(p, order, layer, v) && HasSlot(q, order, layer, w) && v != w
    ensures p != q
  {
    hide InLayer;
    SlotShows(p, order, layer, v);
    SlotShows(q, order, layer, w);
    assert v in order && w in order;
    hide HasSlot, Visits;
    if layer[v] == layer[w] {
      if FirstAt(order, v) < FirstAt(order, w) {
        LeftToRight(order, layer, p, v, q, w);
      } else {
        assert FirstAt(order, v) != FirstAt(order, w);
        LeftToRight(order, layer, q, w, p, v);
      }
    }
  }

  lemma Consequences(nodes: seq<Node>, edges: seq<Edge>, entry: Id, order: seq<Id>, layer: Layering, placed: seq<Node>)
    requires |placed| == |nodes| && Visits(order, layer.Keys) && Layers(nodes, edges, entry, layer)
    requires forall i :: 0 <= i < |nodes| ==> HasSlot(placed[i].position, order, layer, nodes[i].id)
    ensures forall i, d: nat :: 0 <= i < |nodes| && entry in Ids(nodes) && Distance(Arcs(nodes, edges), entry, nodes[i].id, d) ==>
              placed[i].position.y == d * LAYER_GAP_Y
    ensures forall i, j :: 0 <= i < |nodes| && 0 <= j < |nodes| && !Reached(nodes, edges, entry, nodes[i].id) ==>
              if Reached(nodes, edges, entry, nodes[j].id) then placed[j].position.y < placed[i].position.y
              else placed[j].position.y == placed[i].position.y
    ensures forall i, j :: 0 <= i < |nodes| && 0 <= j < |nodes| && nodes[i].id != nodes[j].id ==>
              placed[i].position != placed[j].position
  {
    hide HasSlot, Distance, Reached, Arcs, Ids, Visits;
    forall i | 0 <= i < |nodes| ensures nodes[i].id in layer && placed[i].position.y == layer[nodes[i].id] * LAYER_GAP_Y {
      SlotShows(placed[i].position, order, layer, nodes[i].id);
    }
    forall i, d: nat | 0 <= i < |nodes| && entry in Ids(nodes) && Distance(Arcs(nodes, edges), entry, nodes[i].id, d)
      ensures placed[i].position.y == d * LAYER_GAP_Y
    {
      DistanceShown(nodes, edges, entry, layer, nodes[i].id, d);
    }
    forall i, j | 0 <= i < |nodes| && 0 <= j < |nodes| && nodes[i].id != nodes[j].id
      ensures placed[i].position != placed[j].position
    {
      SlotsDiffer(order, layer, placed[i].position, nodes[i].id, placed[j].position, nodes[j].id);
    }
  }
}
