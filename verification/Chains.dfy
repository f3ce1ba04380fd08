/** Walks along a chain of single successors with a visited set, as the lease,
    control and ancestry walks make them. The chain may be cyclic; a walk that
    stops at its first repeated node has still seen every reachable node. */
module Chains {
  import opened Identifiers

  function At<A(!new)>(step: A -> Option<A>, start: Option<A>, n: nat): Option<A> {
    if n == 0 then start
    else
      var before := At(step, start, n - 1);
      if before.None? then None else step(before.value)
  }

  lemma AtStart<A(!new)>(step: A -> Option<A>, start: Option<A>)
    ensures At(step, start, 0) == start
  {
  }

  lemma AtNext<A(!new)>(step: A -> Option<A>, start: Option<A>, n: nat, a: A)
    requires At(step, start, n) == Some(a)
    ensures At(step, start, n + 1) == step(a)
  {
  }

  ghost predicate Reaches<A(!new)>(step: A -> Option<A>, start: Option<A>, a: A) {
    exists n: nat :: At(step, start, n) == Some(a)
  }

  lemma {:induction false} AtFirst<A(!new)>(step: A -> Option<A>, a: A, n: nat)
    ensures At(step, Some(a), n + 1) == At(step, step(a), n)
  {
    if n > 0 {
      AtFirst(step, a, n - 1);
    } else {
      assert At(step, Some(a), 0) == Some(a);
    }
  }

  /** A chain reaches its first node, and what the rest of it reaches. */
  lemma ReachesFirst<A(!new)>(step: A -> Option<A>, a: A, b: A)
    ensures Reaches(step, Some(a), b) <==> a == b || Reaches(step, step(a), b)
  {
    if n: nat :| At(step, Some(a), n) == Some(b) {
      if n > 0 {
        AtFirst(step, a, n - 1);
      }
    }
    if n: nat :| At(step, step(a), n) == Some(b) {
      AtFirst(step, a, n);
    }
    assert At(step, Some(a), 0) == Some(a);
  }

  /** An absent start reaches nothing. */
  lemma ReachesNone<A(!new)>(step: A -> Option<A>, b: A)
    ensures !Reaches(step, None, b)
  {
    if n: nat :| At(step, None, n) == Some(b) {
      Ended(step, None, 0, n);
    }
  }

  /** `trace` lists the first nodes of the chain and `seen` is their set. */
  ghost predicate Visited<A(!new)>(step: A -> Option<A>, start: Option<A>, trace: seq<A>, seen: set<A>) {
    && (forall j {:trigger trace[j]} | 0 <= j < |trace| :: At(step, start, j) == Some(trace[j]))
    && (forall a :: a in seen <==> a in trace)
  }

  lemma VisitNone<A(!new)>(step: A -> Option<A>, start: Option<A>)
    ensures Visited(step, start, [], {})
  {
  }

  lemma VisitNext<A(!new)>(step: A -> Option<A>, start: Option<A>, trace: seq<A>, seen: set<A>, a: A)
    requires Visited(step, start, trace, seen) && At(step, start, |trace|) == Some(a)
    ensures Visited(step, start, trace + [a], seen + {a})
  {
  }

  /** A reachable node without a successor is the end of the chain. */
  lemma TerminalUnique<A(!new)>(step: A -> Option<A>, start: Option<A>, a: A, b: A)
    requires Reaches(step, start, a) && Reaches(step, start, b) && step(a).None? && step(b).None?
    ensures a == b
  {
    var m: nat :| At(step, start, m) == Some(a);
    var n: nat :| At(step, start, n) == Some(b);
    if m < n {
      Ended(step, start, m + 1, n);
    } else if n < m {
      Ended(step, start, n + 1, m);
    }
  }

  lemma {:induction false} Shift<A(!new)>(step: A -> Option<A>, start: Option<A>, m: nat, n: nat, d: nat)
    requires At(step, start, m) == At(step, start, n)
    ensures At(step, start, m + d) == At(step, start, n + d)
  {
    if d > 0 {
      Shift(step, start, m, n, d - 1);
    }
  }

  /** From a repeated node on, the chain only repeats earlier nodes. */
  lemma {:induction false} Periodic<A(!new)>(step: A -> Option<A>, start: Option<A>, m: nat, n: nat, k: nat)
      returns (j: nat)
    requires m < n && At(step, start, m) == At(step, start, n)
    ensures j < n && At(step, start, k) == At(step, start, j)
    decreases k
  {
    if k < n {
      j := k;
    } else {
      Shift(step, start, m, n, k - n);
      j := Periodic(step, start, m, n, m + (k - n));
    }
  }

  lemma {:induction false} Ended<A(!new)>(step: A -> Option<A>, start: Option<A>, n: nat, k: nat)
    requires At(step, start, n).None? && n <= k
    ensures At(step, start, k).None?
  {
    if n < k {
      Ended(step, start, n, k - 1);
    }
  }

  /** Where the walk stops, it has seen exactly the reachable nodes. */
  lemma StopSeesAll<A(!new)>(step: A -> Option<A>, start: Option<A>, trace: seq<A>, seen: set<A>)
    requires Visited(step, start, trace, seen)
    requires var next := At(step, start, |trace|); next.Some? ==> next.value in seen
    ensures forall a :: Reaches(step, start, a) <==> a in seen
  {
    forall a | Reaches(step, start, a) ensures a in seen {
      var k: nat :| At(step, start, k) == Some(a);
      var next := At(step, start, |trace|);
      if k < |trace| {
        assert trace[k] == a;
      } else if next.None? {
        Ended(step, start, |trace|, k);
      } else {
        var m: nat :| m < |trace| && trace[m] == next.value;
        var j := Periodic(step, start, m, |trace|, k);
        assert trace[j] == a;
      }
    }
    forall a | a in seen ensures Reaches(step, start, a) {
      var j :| 0 <= j < |trace| && trace[j] == a;
    }
  }

  /** Chains with the same steps reach the same nodes. */
  lemma SameSteps<A(!new)>(f: A -> Option<A>, g: A -> Option<A>, start: Option<A>)
    requires forall a :: f(a) == g(a)
    ensures forall a :: Reaches(f, start, a) <==> Reaches(g, start, a)
  {
    forall n: nat ensures At(f, start, n) == At(g, start, n) {
      SameStepsAt(f, g, start, n);
    }
    forall a ensures Reaches(f, start, a) <==> Reaches(g, start, a) {
      if n: nat :| At(f, start, n) == Some(a) {
        assert At(g, start, n) == Some(a);
      }
      if n: nat :| At(g, start, n) == Some(a) {
        assert At(f, start, n) == Some(a);
      }
    }
  }

  lemma {:induction false} SameStepsAt<A(!new)>(f: A -> Option<A>, g: A -> Option<A>, start: Option<A>, n: nat)
    requires forall a :: f(a) == g(a)
    ensures At(f, start, n) == At(g, start, n)
  {
    if n > 0 {
      SameStepsAt(f, g, start, n - 1);
    }
  }
}
