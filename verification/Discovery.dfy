/** The order in which a breadth-first loop meets its nodes, read off the graph alone. */
module Discovery {

  /** Where x occurs first, or the length. */
  function FirstAt<T(==)>(all: seq<T>, x: T): (i: nat)
    ensures i <= |all| && (i < |all| <==> x in all) && (i < |all| ==> all[i] == x)
    ensures forall j :: 0 <= j < i ==> all[j] != x
  {
    if all == [] then 0 else if all[0] == x then 0 else FirstAt(all[1..], x) + 1
  }

  /** The elements of row come in the order of their first occurrences. */
  ghost predicate ByFirst<T>(row: seq<T>, all: seq<T>) {
    && (forall j :: 0 <= j < |row| ==> row[j] in all)
    && (forall j, k :: 0 <= j < k < |row| ==> FirstAt(all, row[j]) < FirstAt(all, row[k]))
  }

  lemma FirstStays<T>(all: seq<T>, more: seq<T>, x: T)
    requires x in all
    ensures FirstAt(all + more, x) == FirstAt(all, x)
  {
    var i, k := FirstAt(all, x), FirstAt(all + more, x);
    assert (all + more)[i] == x;
    assert k <= i;
    assert (all + more)[k] == all[k];
  }

  lemma FirstIsLast<T>(all: seq<T>, x: T)
    requires x !in all
    ensures FirstAt(all + [x], x) == |all|
  {
    assert (all + [x])[|all|] == x;
    assert forall j :: 0 <= j < |all| ==> (all + [x])[j] == all[j];
  }

  lemma RowStays<T>(row: seq<T>, all: seq<T>, more: seq<T>)
    requires ByFirst(row, all)
    ensures ByFirst(row, all + more)
  {
    hide FirstAt;
    forall j, k | 0 <= j < k < |row| ensures FirstAt(all + more, row[j]) < FirstAt(all + more, row[k]) {
      FirstStays(all, more, row[j]);
      FirstStays(all, more, row[k]);
    }
  }

  lemma RowGrows<T>(row: seq<T>, all: seq<T>, x: T)
    requires ByFirst(row, all) && x !in all
    ensures ByFirst(row + [x], all + [x])
  {
    hide FirstAt;
    FirstIsLast(all, x);
    forall j | 0 <= j < |row| ensures FirstAt(all + [x], row[j]) < |all| { FirstStays(all, [x], row[j]); }
    RowStays(row, all, [x]);
  }

  // ---------------------------------------------------------------- places

  /** A place on the way: a node, by its number in the order, and one of its targets, by its rank. */
  datatype Place = Place(parent: nat, rank: nat)

  predicate Before(p: Place, q: Place) {
    p.parent < q.parent || (p.parent == q.parent && p.rank < q.rank)
  }

  predicate Leads<N(==, !new)>(adj: map<N, seq<N>>, order: seq<N>, p: Place, v: N) {
    && p.parent < |order| && order[p.parent] in adj
    && p.rank < |adj[order[p.parent]]| && adj[order[p.parent]][p.rank] == v
  }

  /** Each node but the first was found at the first place that leads to it, which lies with an earlier node. */
  ghost predicate FoundFirst<N(!new)>(adj: map<N, seq<N>>, order: seq<N>, found: seq<Place>)
    requires |found| == |order|
  {
    && (forall k :: 0 < k < |order| ==> found[k].parent < k && Leads(adj, order, found[k], order[k]))
    && (forall k, p :: 0 < k < |order| && Before(p, found[k]) ==> !Leads(adj, order, p, order[k]))
  }

  /** The nodes come in the order of the places where they were found. */
  ghost predicate PlacesAscend(found: seq<Place>) {
    forall j, k :: 0 < j < k < |found| ==> Before(found[j], found[k])
  }

  /** Every place before `at` has been looked at. */
  ghost predicate LookedAt<N(!new)>(adj: map<N, seq<N>>, order: seq<N>, at: Place) {
    forall p, v :: Before(p, at) && Leads(adj, order, p, v) ==> v in order
  }

  ghost predicate Found<N(!new)>(adj: map<N, seq<N>>, order: seq<N>, found: seq<Place>, at: Place) {
    && order != [] && |found| == |order|
    && FoundFirst(adj, order, found) && PlacesAscend(found) && LookedAt(adj, order, at)
    && forall k :: 0 < k < |found| ==> Before(found[k], at)
  }

  /** The breadth-first order: from its first node, by the places where the others are first found, and closed. */
  ghost predicate Discovered<N(!new)>(adj: map<N, seq<N>>, order: seq<N>) {
    exists found :: Found(adj, order, found, Place(|order|, 0))
  }

  lemma FoundStarts<N(!new)>(adj: map<N, seq<N>>, entry: N)
    ensures Found(adj, [entry], [Place(0, 0)], Place(0, 0))
  {
  }

  lemma FoundSkips<N(!new)>(adj: map<N, seq<N>>, order: seq<N>, found: seq<Place>, at: Place, v: N)
    requires Found(adj, order, found, at) && Leads(adj, order, at, v) && v in order
    ensures Found(adj, order, found, Place(at.parent, at.rank + 1))
  {
    hide FoundFirst, PlacesAscend;
    var at' := Place(at.parent, at.rank + 1);
    forall p, w | Before(p, at') && Leads(adj, order, p, w) ensures w in order {
      assert Before(p, at) || p == at;
    }
  }

  lemma LeadsOn<N(!new)>(adj: map<N, seq<N>>, order: seq<N>, v: N, p: Place, w: N)
    requires p.parent < |order|
    ensures Leads(adj, order + [v], p, w) <==> Leads(adj, order, p, w)
  {
    assert (order + [v])[p.parent] == order[p.parent];
  }

  lemma FirstPlace<N(!new)>(adj: map<N, seq<N>>, order: seq<N>, found: seq<Place>, at: Place, v: N)
    requires Found(adj, order, found, at) && Leads(adj, order, at, v) && v !in order
    ensures FoundFirst(adj, order + [v], found + [at])
  {
    var order', found' := order + [v], found + [at];
    forall k | 0 < k < |order'| ensures found'[k].parent < k && Leads(adj, order', found'[k], order'[k]) {
      LeadsOn(adj, order, v, found'[k], order'[k]);
    }
    forall k, p | 0 < k < |order'| && Before(p, found'[k]) ensures !Leads(adj, order', p, order'[k]) {
      LeadsOn(adj, order, v, p, order'[k]);
    }
  }

  lemma FoundAdds<N(!new)>(adj: map<N, seq<N>>, order: seq<N>, found: seq<Place>, at: Place, v: N)
    requires Found(adj, order, found, at) && Leads(adj, order, at, v) && v !in order
    ensures Found(adj, order + [v], found + [at], Place(at.parent, at.rank + 1))
  {
    FirstPlace(adj, order, found, at, v);
    hide FoundFirst;
    var order', at' := order + [v], Place(at.parent, at.rank + 1);
    forall p, w | Before(p, at') && Leads(adj, order', p, w) ensures w in order' {
      LeadsOn(adj, order, v, p, w);
      assert Before(p, at) || p == at;
    }
  }

  /** With the last target of its node, the search goes on with the next node. */
  lemma FoundMovesOn<N(!new)>(adj: map<N, seq<N>>, order: seq<N>, found: seq<Place>, at: Place)
    requires Found(adj, order, found, at) && at.parent < |order|
    requires at.rank == if order[at.parent] in adj then |adj[order[at.parent]]| else 0
    ensures Found(adj, order, found, Place(at.parent + 1, 0))
  {
    hide FoundFirst, PlacesAscend;
    var at' := Place(at.parent + 1, 0);
    forall p, w | Before(p, at') && Leads(adj, order, p, w) ensures w in order {
      assert Before(p, at);
    }
  }
}
