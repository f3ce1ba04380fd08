/** Sums over the elements of a set, listed in any order. The accounting passes
    add up while they walk a JavaScript `Map`; what they add does not depend on
    the order of the walk. */
module Listings {

  /** `order` lists the elements of `s`, each once. */
  ghost predicate Lists<K(!new)>(order: seq<K>, s: set<K>) {
    && (forall k :: k in order <==> k in s)
    && forall i, j | 0 <= i < j < |order| :: order[i] != order[j]
  }

  lemma ListsNext<K(!new)>(order: seq<K>, s: set<K>, k: K)
    requires Lists(order, s) && k !in s
    ensures Lists(order + [k], s + {k})
  {
  }

  lemma ListsBoth<K(!new)>(a: seq<K>, b: seq<K>, s: set<K>, t: set<K>)
    requires Lists(a, s) && Lists(b, t) && s !! t
    ensures Lists(a + b, s + t)
  {
    forall i, j | 0 <= i < j < |a + b| ensures (a + b)[i] != (a + b)[j] {
      assert i < |a| ==> a[i] in s;
      assert j >= |a| ==> b[j - |a|] in t;
    }
  }

  lemma ListsInit<K(!new)>(order: seq<K>, s: set<K>)
    requires Lists(order, s) && order != []
    ensures Lists(order[..|order| - 1], s - {order[|order| - 1]})
  {
    var init, last := order[..|order| - 1], order[|order| - 1];
    assert order == init + [last];
  }

  lemma {:induction false} ListsSize<K(!new)>(order: seq<K>, s: set<K>)
    requires Lists(order, s)
    ensures |order| == |s|
  {
    if order == [] {
      assert s == {};
    } else {
      ListsInit(order, s);
      ListsSize(order[..|order| - 1], s - {order[|order| - 1]});
    }
  }

  lemma ListsWithout<K(!new)>(order: seq<K>, s: set<K>, i: nat)
    requires Lists(order, s) && i < |order|
    ensures Lists(order[..i] + order[i + 1..], s - {order[i]})
  {
    var rest := order[..i] + order[i + 1..];
    assert forall j | 0 <= j < |rest| :: rest[j] == order[if j < i then j else j + 1];
    forall k | k in order && k != order[i] ensures k in rest {
      var j :| 0 <= j < |order| && order[j] == k;
      assert rest[if j < i then j else j - 1] == k;
    }
  }

  /** An associative and commutative addition. */
  ghost predicate Additive<T(!new)>(plus: (T, T) -> T) {
    && (forall a, b :: plus(a, b) == plus(b, a))
    && forall a, b, c :: plus(plus(a, b), c) == plus(a, plus(b, c))
  }

  ghost function SumOver<K, T>(order: seq<K>, zero: T, plus: (T, T) -> T, f: K -> T): T {
    if order == [] then zero
    else plus(SumOver(order[..|order| - 1], zero, plus, f), f(order[|order| - 1]))
  }

  /** The plain sum of one amount over a list. */
  ghost function Sum<K>(order: seq<K>, amount: K -> real): real {
    if order == [] then 0.0 else Sum(order[..|order| - 1], amount) + amount(order[|order| - 1])
  }

  lemma {:induction false} SumsAgree<K(!new)>(order: seq<K>, f: K -> real, g: K -> real)
    requires forall k | k in order :: f(k) == g(k)
    ensures Sum(order, f) == Sum(order, g)
  {
    if order != [] {
      SumsAgree(order[..|order| - 1], f, g);
    }
  }

  lemma {:induction false} SumOfBoth<K>(a: seq<K>, b: seq<K>, amount: K -> real)
    ensures Sum(a + b, amount) == Sum(a, amount) + Sum(b, amount)
  {
    if b == [] {
      assert a + b == a;
    } else {
      SumOfBoth(a, b[..|b| - 1], amount);
      assert (a + b)[..|a + b| - 1] == a + b[..|b| - 1];
    }
  }

  /** Taking one element out of the middle takes its value out of the sum. */
  lemma {:induction false} SumWithout<K, T(!new)>(order: seq<K>, zero: T, plus: (T, T) -> T, f: K -> T, i: nat)
    requires Additive(plus) && i < |order|
    ensures SumOver(order, zero, plus, f) == plus(SumOver(order[..i] + order[i + 1..], zero, plus, f), f(order[i]))
  {
    var n := |order| - 1;
    var init, rest := order[..n], order[..i] + order[i + 1..];
    if i == n {
      assert rest == init;
    } else {
      SumWithout(init, zero, plus, f, i);
      var less := init[..i] + init[i + 1..];
      assert rest[..|rest| - 1] == less && rest[|rest| - 1] == order[n];
      var sum := SumOver(less, zero, plus, f);
      assert plus(plus(sum, f(order[i])), f(order[n])) == plus(sum, plus(f(order[i]), f(order[n])));
      assert plus(plus(sum, f(order[n])), f(order[i])) == plus(sum, plus(f(order[n]), f(order[i])));
    }
  }

  /** Two listings of one set have one sum. */
  lemma {:induction false} SumIsOrderFree<K(!new), T(!new)>(a: seq<K>, b: seq<K>, s: set<K>, zero: T, plus: (T, T) -> T,
      f: K -> T)
    requires Additive(plus) && Lists(a, s) && Lists(b, s)
    ensures SumOver(a, zero, plus, f) == SumOver(b, zero, plus, f)
    decreases |a|
  {
    ListsSize(a, s);
    ListsSize(b, s);
    if a != [] {
      var last := a[|a| - 1];
      assert last in b;
      var i :| 0 <= i < |b| && b[i] == last;
      ListsInit(a, s);
      ListsWithout(b, s, i);
      SumWithout(b, zero, plus, f, i);
      SumIsOrderFree(a[..|a| - 1], b[..i] + b[i + 1..], s - {last}, zero, plus, f);
    }
  }

  lemma {:induction false} SumIsSumOver<K>(order: seq<K>, amount: K -> real)
    ensures Sum(order, amount) == SumOver(order, 0.0, (a: real, b: real) => a + b, amount)
  {
    if order != [] {
      SumIsSumOver(order[..|order| - 1], amount);
    }
  }

  lemma SumsOfOneSet<K(!new)>(a: seq<K>, b: seq<K>, s: set<K>, amount: K -> real)
    requires Lists(a, s) && Lists(b, s)
    ensures Sum(a, amount) == Sum(b, amount)
  {
    SumIsSumOver(a, amount);
    SumIsSumOver(b, amount);
    SumIsOrderFree(a, b, s, 0.0, (x: real, y: real) => x + y, amount);
  }

  /** Over any listing of a set, one for each hit adds up to the number of hits. */
  lemma {:induction false} SumCounts<K(!new)>(order: seq<K>, s: set<K>, hits: set<K>, amount: K -> real)
    requires Lists(order, s) && hits <= s
    requires forall k | k in s :: amount(k) == if k in hits then 1.0 else 0.0
    ensures Sum(order, amount) == |hits| as real
  {
    if order == [] {
      assert hits == {};
    } else {
      var last := order[|order| - 1];
      ListsInit(order, s);
      SumCounts(order[..|order| - 1], s - {last}, hits - {last}, amount);
      assert last in hits ==> hits == hits - {last} + {last};
      assert last !in hits ==> hits == hits - {last};
    }
  }

  /** Every finite set has a listing. */
  lemma {:induction false} SomeListing<K(!new)>(s: set<K>) returns (order: seq<K>)
    ensures Lists(order, s)
  {
    if s == {} {
      order := [];
    } else {
      var k :| k in s;
      order := SomeListing(s - {k});
      ListsNext(order, s - {k}, k);
      order := order + [k];
      assert s - {k} + {k} == s;
    }
  }
}
