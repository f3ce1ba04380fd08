/** The accounting passes group journal events by a computed key: a map of
    lists, where a step pushes the event on its key's list. Events without a
    key are passed over. */
module Groups {
  import opened Identifiers

  /** The items of one key, in order. */
  ghost function Members<K, V>(items: seq<V>, keyOf: V -> Option<K>, k: K): seq<V> {
    if items == [] then []
    else
      var last := items[|items| - 1];
      Members(items[..|items| - 1], keyOf, k) + if keyOf(last) == Some(k) then [last] else []
  }

  /** `groups.get(k) ?? []` */
  function GroupOf<K(==), V>(groups: map<K, seq<V>>, k: K): seq<V> {
    if k in groups then groups[k] else []
  }

  function Push<K(==), V>(groups: map<K, seq<V>>, k: Option<K>, v: V): map<K, seq<V>> {
    if k.None? then groups else groups[k.value := GroupOf(groups, k.value) + [v]]
  }

  /** Every key has exactly its items, and no group is empty. */
  ghost predicate Grouped<K(!new), V>(items: seq<V>, keyOf: V -> Option<K>, groups: map<K, seq<V>>) {
    && (forall k :: GroupOf(groups, k) == Members(items, keyOf, k))
    && (forall k | k in groups :: groups[k] != [])
  }

  lemma PushGroups<K(!new), V>(items: seq<V>, keyOf: V -> Option<K>, groups: map<K, seq<V>>, v: V)
    requires Grouped(items, keyOf, groups)
    ensures Grouped(items + [v], keyOf, Push(groups, keyOf(v), v))
  {
  }

  lemma {:induction false} MembersAre<K, V>(items: seq<V>, keyOf: V -> Option<K>, k: K)
    ensures forall v :: v in Members(items, keyOf, k) <==> v in items && keyOf(v) == Some(k)
  {
    if items != [] {
      MembersAre(items[..|items| - 1], keyOf, k);
      assert items == items[..|items| - 1] + [items[|items| - 1]];
    }
  }

  /** A key has a group exactly when some item has the key, and the group holds
      exactly the items of the key. */
  lemma GroupsAre<K(!new), V(!new)>(items: seq<V>, keyOf: V -> Option<K>, groups: map<K, seq<V>>)
    requires Grouped(items, keyOf, groups)
    ensures forall k, v | k in groups && v in groups[k] :: v in items && keyOf(v) == Some(k)
    ensures forall v | v in items && keyOf(v).Some? :: keyOf(v).value in groups && v in groups[keyOf(v).value]
  {
    forall k, v | k in groups && v in groups[k] ensures v in items && keyOf(v) == Some(k) {
      MembersAre(items, keyOf, k);
      assert GroupOf(groups, k) == groups[k];
    }
    forall v | v in items && keyOf(v).Some? ensures keyOf(v).value in groups && v in groups[keyOf(v).value] {
      MembersAre(items, keyOf, keyOf(v).value);
      assert v in GroupOf(groups, keyOf(v).value);
    }
  }

  /** The items determine the groups. */
  lemma GroupsUnique<K(!new), V>(items: seq<V>, keyOf: V -> Option<K>, a: map<K, seq<V>>, b: map<K, seq<V>>)
    requires Grouped(items, keyOf, a) && Grouped(items, keyOf, b)
    ensures a == b
  {
    hide Members;
    forall k ensures k in a <==> k in b && (k in a && k in b ==> a[k] == b[k]) {
      assert GroupOf(a, k) == GroupOf(b, k);
    }
  }

  method Group<K(!new,==), V>(items: seq<V>, keyOf: V -> Option<K>) returns (groups: map<K, seq<V>>)
    ensures Grouped(items, keyOf, groups)
  {
    groups := map[];
    hide Push;
    for n := 0 to |items|
      invariant Grouped(items[..n], keyOf, groups)
    {
      assert items[..n + 1] == items[..n] + [items[n]];
      PushGroups(items[..n], keyOf, groups, items[n]);
      groups := Push(groups, keyOf(items[n]), items[n]);
    }
    assert items[..|items|] == items;
  }

  /** How many items satisfy `p`. */
  ghost function Count<V>(items: seq<V>, p: V -> bool): nat {
    if items == [] then 0
    else Count(items[..|items| - 1], p) + if p(items[|items| - 1]) then 1 else 0
  }

  lemma {:induction false} CountSame<V>(items: seq<V>, p: V -> bool, q: V -> bool)
    requires forall v | v in items :: p(v) == q(v)
    ensures Count(items, p) == Count(items, q)
  {
    if items != [] {
      CountSame(items[..|items| - 1], p, q);
      assert items[|items| - 1] in items;
    }
  }

  /** Different items that satisfy `p` are counted apart. */
  lemma {:induction false} CountBounds<V>(items: seq<V>, p: V -> bool, chosen: set<V>)
    requires forall v | v in chosen :: v in items && p(v)
    ensures |chosen| <= Count(items, p)
  {
    if items == [] {
      assert chosen == {};
    } else {
      var init, last := items[..|items| - 1], items[|items| - 1];
      assert items == init + [last];
      CountBounds(init, p, chosen - {last});
      if last in chosen {
        assert chosen == chosen - {last} + {last};
      } else {
        assert chosen == chosen - {last};
      }
    }
  }

  /** How many items of the keys `done` satisfy `p`. */
  ghost function CountIn<K, V>(items: seq<V>, keyOf: V -> Option<K>, done: set<K>, p: V -> bool): nat {
    if items == [] then 0
    else
      var last := items[|items| - 1];
      CountIn(items[..|items| - 1], keyOf, done, p) + if keyOf(last).Some? && keyOf(last).value in done
          && p(last) then 1 else 0
  }

  lemma CountStep<V>(items: seq<V>, p: V -> bool, v: V)
    ensures Count(items + [v], p) == Count(items, p) + if p(v) then 1 else 0
  {
  }

  /** A visit to every group counts each item once: one more group adds the
      count inside that group. */
  lemma {:induction false} CountGroup<K, V>(items: seq<V>, keyOf: V -> Option<K>, done: set<K>, k: K, p: V -> bool)
    requires k !in done
    ensures CountIn(items, keyOf, done + {k}, p) == CountIn(items, keyOf, done, p) + Count(Members(items, keyOf, k), p)
  {
    if items != [] {
      var init, last := items[..|items| - 1], items[|items| - 1];
      CountGroup(init, keyOf, done, k, p);
      if keyOf(last) == Some(k) {
        CountStep(Members(init, keyOf, k), p, last);
      } else {
        assert Members(items, keyOf, k) == Members(init, keyOf, k);
      }
    }
  }

  lemma {:induction false} CountAllGroups<K(!new), V>(items: seq<V>, keyOf: V -> Option<K>, done: set<K>, p: V -> bool)
    requires forall v | v in items :: keyOf(v).Some? && keyOf(v).value in done
    ensures CountIn(items, keyOf, done, p) == Count(items, p)
  {
    if items != [] {
      CountAllGroups(items[..|items| - 1], keyOf, done, p);
      assert items[|items| - 1] in items;
    }
  }

  lemma {:induction false} CountNoGroups<K, V>(items: seq<V>, keyOf: V -> Option<K>, p: V -> bool)
    ensures CountIn(items, keyOf, {}, p) == 0
  {
    if items != [] {
      CountNoGroups(items[..|items| - 1], keyOf, p);
    }
  }

  /** A set that maps into another one without collision is no larger. */
  lemma {:induction false} InjectionBounds<E, K>(s: set<E>, f: E -> K, t: set<K>)
    requires forall e | e in s :: f(e) in t
    requires forall a, b | a in s && b in s && f(a) == f(b) :: a == b
    ensures |s| <= |t|
  {
    if e :| e in s {
      InjectionBounds(s - {e}, f, t - {f(e)});
      assert s == s - {e} + {e} && t == t - {f(e)} + {f(e)};
    }
  }

  lemma SubsetSize<T>(a: set<T>, b: set<T>)
    requires a <= b
    ensures |a| <= |b|
  {
    assert b == a + (b - a);
  }

  lemma {:induction false} FewerValues<K, V(!new)>(m: map<K, V>)
    ensures |m.Values| <= |m|
  {
  }

  /** `counts.get(k) ?? 0` */
  function CountOf<K(==)>(counts: map<K, nat>, k: K): nat {
    if k in counts then counts[k] else 0
  }

  /** A counter map: how many items have each key. */
  ghost predicate Tallied<K(!new), V>(items: seq<V>, keyOf: V -> Option<K>, counts: map<K, nat>) {
    forall k :: CountOf(counts, k) == |Members(items, keyOf, k)|
  }

  method Tally<K(!new,==), V>(items: seq<V>, keyOf: V -> Option<K>) returns (counts: map<K, nat>)
    ensures Tallied(items, keyOf, counts)
  {
    counts := map[];
    for n := 0 to |items|
      invariant Tallied(items[..n], keyOf, counts)
    {
      TallyStep(items[..n], keyOf, counts, items[n]);
      assert items[..n + 1] == items[..n] + [items[n]];
      var k := keyOf(items[n]);
      if k.Some? {
        counts := counts[k.value := CountOf(counts, k.value) + 1];
      }
    }
    assert items[..|items|] == items;
  }

  lemma TallyStep<K(!new), V>(items: seq<V>, keyOf: V -> Option<K>, counts: map<K, nat>, v: V)
    requires Tallied(items, keyOf, counts)
    ensures Tallied(items + [v], keyOf, if keyOf(v).Some?
                    then counts[keyOf(v).value := CountOf(counts, keyOf(v).value) + 1] else counts)
  {
  }

  /** A key that was counted once belongs to one item. */
  lemma CountedOnce<K, V>(items: seq<V>, keyOf: V -> Option<K>, k: K, a: V, b: V)
    requires |Members(items, keyOf, k)| == 1
    requires a in items && keyOf(a) == Some(k) && b in items && keyOf(b) == Some(k)
    ensures a == b
  {
    MembersAre(items, keyOf, k);
    assert a in Members(items, keyOf, k) && b in Members(items, keyOf, k);
  }
}
