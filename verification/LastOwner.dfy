/** Several passes of the accounting engine detect shared identities the same
    way: a map remembers only the LAST owner of each identity, and a step that
    finds a different previous owner marks both. This module proves once that
    the shortcut loses nothing: the marked owners are exactly those that share
    some identity with a different owner, whatever the order of the steps. */
module LastOwner {

  /** Observation `p` names an identity that another owner also names. */
  ghost predicate Contested<K(!new), V(!new)>(seen: set<(K, V)>, p: (K, V)) {
    exists q :: q in seen && q.0 == p.0 && q.1 != p.1
  }

  /** The owners that share some identity with a different owner. */
  ghost function ContestedOwners<K(!new), V(!new)>(seen: set<(K, V)>): set<V> {
    set p | p in seen && Contested(seen, p) :: p.1
  }

  /** `last` holds one of the observed owners of every observed identity. */
  ghost predicate Tracks<K(!new), V(!new)>(seen: set<(K, V)>, last: map<K, V>) {
    && (forall k | k in last :: (k, last[k]) in seen)
    && (forall p | p in seen :: p.0 in last)
  }

  /** What one comparison with the last recorded owner marks. */
  function Marked<K(==), V(==)>(last: map<K, V>, k: K, v: V): set<V> {
    if k in last && last[k] != v then {last[k], v} else {}
  }

  /** One step keeps the correspondence: the marks added by comparing with the
      last owner alone are exactly the newly contested owners. */
  lemma ObserveOwner<K(!new), V(!new)>(seen: set<(K, V)>, last: map<K, V>, k: K, v: V)
    requires Tracks(seen, last)
    ensures Tracks(seen + {(k, v)}, last[k := v])
    ensures ContestedOwners(seen + {(k, v)}) == ContestedOwners(seen) + Marked(last, k, v)
  {
  }

  /** The identities that several owners name. */
  ghost function ContestedKeys<K(!new), V(!new)>(seen: set<(K, V)>): set<K> {
    set p | p in seen && Contested(seen, p) :: p.0
  }

  /** Where the pass keeps the identity instead of its owners, the comparison with
      the last owner still finds exactly the identities with several owners. */
  lemma ObserveIdentity<K(!new), V(!new)>(seen: set<(K, V)>, last: map<K, V>, k: K, v: V)
    requires Tracks(seen, last)
    ensures ContestedKeys(seen + {(k, v)}) == ContestedKeys(seen) + if k in last && last[k] != v then {k} else {}
  {
  }

  /** One last-owner map together with everything its comparisons marked. */
  datatype Tracker<K(==,!new), V(==,!new)> = Tracker(last: map<K, V>, marked: set<V>)
  {
    ghost predicate Follows(seen: set<(K, V)>) {
      Tracks(seen, last) && marked == ContestedOwners(seen)
    }

    function Observe(k: K, v: V): Tracker<K, V> {
      Tracker(last[k := v], marked + Marked(last, k, v))
    }
  }

  lemma ObserveFollows<K(!new), V(!new)>(tracker: Tracker<K, V>, seen: set<(K, V)>, k: K, v: V)
    requires tracker.Follows(seen)
    ensures tracker.Observe(k, v).Follows(seen + {(k, v)})
  {
  }

  /** Nothing was ever marked exactly when every identity has one owner. */
  lemma UncontestedIffFunctional<K(!new), V(!new)>(seen: set<(K, V)>)
    ensures ContestedOwners(seen) == {} <==> forall p, q | p in seen && q in seen && p.0 == q.0 :: p.1 == q.1
  {
    if ContestedOwners(seen) == {} {
      forall p, q | p in seen && q in seen && p.0 == q.0 ensures p.1 == q.1 {
        assert p.1 != q.1 ==> Contested(seen, p);
        assert Contested(seen, p) ==> p.1 in ContestedOwners(seen);
      }
    } else {
      var w :| w in ContestedOwners(seen);
      var p :| p in seen && Contested(seen, p) && p.1 == w;
      var q :| q in seen && q.0 == p.0 && q.1 != p.1;
    }
  }
}
