/** The optional value used throughout the model for a missing map entry or an absent field. */
module Options {

  datatype Option<+T> = None | Some(value: T)

  /** A JavaScript Map lookup: the entry, or nothing. */
  function Lookup<K, V>(m: map<K, V>, k: K): Option<V> {
    if k in m then Some(m[k]) else None
  }

  lemma SameLookups<K, V>(m: map<K, V>, n: map<K, V>)
    requires forall k :: Lookup(m, k) == Lookup(n, k)
    ensures m == n
  {
    assert forall k :: k in m <==> Lookup(m, k).Some?;
    assert forall k :: k in n <==> Lookup(n, k).Some?;
  }

  /** `order` visits every key once: an iteration order of a JavaScript Map or Set. */
  ghost predicate Visits<K(!new)>(order: seq<K>, keys: set<K>) {
    && (forall i :: 0 <= i < |order| ==> order[i] in keys)
    && (forall k :: k in keys ==> k in order)
    && (forall i, j :: 0 <= i < j < |order| ==> order[i] != order[j])
  }

  function Elements<K>(s: seq<K>): set<K> {
    set k | k in s
  }

  /** The keys met after one more step of a loop over `order`. */
  lemma VisitedAt<K(!new)>(order: seq<K>, keys: set<K>, i: nat)
    requires Visits(order, keys) && i < |order|
    ensures order[i] in keys && order[i] !in Elements(order[..i])
    ensures Elements(order[..i + 1]) == Elements(order[..i]) + {order[i]}
    ensures order[..i + 1] == order[..i] + [order[i]]
  {
  }

  lemma VisitedAll<K(!new)>(order: seq<K>, keys: set<K>)
    requires Visits(order, keys)
    ensures Elements(order) == keys
    ensures order[..|order|] == order
  {
  }

  lemma {:induction false} VisitedOnce<K(!new)>(order: seq<K>, keys: set<K>)
    requires Visits(order, keys)
    ensures |order| == |keys|
  {
    if order == [] {
      assert keys == {};
    } else {
      var n := |order| - 1;
      var k := order[n];
      forall j | j in keys - {k} ensures j in order[..n] {
        assert j in order;
      }
      VisitedOnce(order[..n], keys - {k});
    }
  }

  /** The order in which a loop meets the keys; nothing below depends on which one it is. */
  method IterationOrder<K(==, !new)>(keys: set<K>) returns (order: seq<K>)
    ensures Visits(order, keys)
  {
    order := [];
    var rest := keys;
    while rest != {}
      invariant rest <= keys
      invariant Visits(order, keys - rest)
      decreases rest
    {
      var k :| k in rest;
      order := order + [k];
      rest := rest - {k};
    }
    assert keys - rest == keys;
  }
}
