/** Pruning of usage lineages (scripts/session-comparison.ts: the loops that end
    readWorkerUsageGraph, readWorkflowUsageGraph and mergeWorkerUsageGraphs). A
    scope is deleted while it is conflicting or its parent is neither a root nor
    a remaining scope, until a whole pass deletes nothing. */
module Lineage {
  import opened Identifiers
  import opened LastOwner

  /** The recorded parent of each scope; a scope without one needs none. */
  type Parents = map<Source, Option<Source>>

  predicate Supported(parents: Parents, roots: set<Source>, remaining: set<Source>, k: Source) {
    k in parents && (parents[k].None? || parents[k].value in roots || parents[k].value in remaining)
  }

  /** A set of scopes that no deletion step can shrink. */
  ghost predicate Stable(parents: Parents, roots: set<Source>, conflicting: set<Source>, s: set<Source>) {
    forall k | k in s :: k !in conflicting && Supported(parents, roots, s, k)
  }

  /** Events precede their children: what admission of a link checks. */
  ghost predicate Younger(parents: Parents) {
    forall k | k in parents && parents[k].Some? :: parents[k].value.seqNo < k.seqNo
  }

  /** Least fixpoint: a non-conflicting chain of parents reaches a root. */
  ghost predicate Rooted(parents: Parents, roots: set<Source>, conflicting: set<Source>, k: Source)
    decreases k.seqNo
  {
    && k in parents && k !in conflicting
    && match parents[k]
       case None => true
       case Some(p) => p in roots || (p.seqNo < k.seqNo && Rooted(parents, roots, conflicting, p))
  }

  /** Delete until stable, visiting the scopes in any order. Whatever the order,
      what remains is the greatest stable set. */
  method Prune(parents: Parents, roots: set<Source>, conflicting: set<Source>) returns (remaining: set<Source>)
    ensures remaining <= parents.Keys
    ensures Stable(parents, roots, conflicting, remaining)
    ensures forall s | Stable(parents, roots, conflicting, s) :: s <= remaining
  {
    remaining := parents.Keys;
    var removed := true;
    while removed
      invariant remaining <= parents.Keys
      invariant forall s | Stable(parents, roots, conflicting, s) :: s <= remaining
      invariant !removed ==> Stable(parents, roots, conflicting, remaining)
      decreases remaining, removed
    {
      removed := false;
      var todo := remaining;
      ghost var before := remaining;
      while todo != {}
        invariant todo <= remaining <= before
        invariant forall s | Stable(parents, roots, conflicting, s) :: s <= remaining
        invariant removed <==> remaining != before
        invariant !removed ==> forall k | k in remaining - todo ::
                                 k !in conflicting && Supported(parents, roots, remaining, k)
      {
        var k :| k in todo;
        todo := todo - {k};
        if k in conflicting || !Supported(parents, roots, remaining, k) {
          remaining := remaining - {k};
          removed := true;
        }
      }
    }
  }

  /** Because every admitted parent is earlier, greatest and least fixpoint
      coincide: a stable set holds only rooted scopes ... */
  lemma {:induction false} StableIsRooted(parents: Parents, roots: set<Source>, conflicting: set<Source>,
      s: set<Source>, k: Source)
    requires Younger(parents) && Stable(parents, roots, conflicting, s) && k in s
    ensures Rooted(parents, roots, conflicting, k)
    decreases k.seqNo
  {
    if parents[k].Some? && parents[k].value !in roots {
      StableIsRooted(parents, roots, conflicting, s, parents[k].value);
    }
  }

  /** ... and the rooted scopes are a stable set. So pruning keeps exactly them,
      and no orphan cycle survives. */
  lemma PruneIsRooted(parents: Parents, roots: set<Source>, conflicting: set<Source>, remaining: set<Source>)
    requires Younger(parents) && remaining <= parents.Keys
    requires Stable(parents, roots, conflicting, remaining)
    requires forall s | Stable(parents, roots, conflicting, s) :: s <= remaining
    ensures forall k :: k in remaining <==> Rooted(parents, roots, conflicting, k)
  {
    var rooted := set k | k in parents && Rooted(parents, roots, conflicting, k);
    forall k | k in rooted ensures k !in conflicting && Supported(parents, roots, rooted, k) {
      assert parents[k].Some? && parents[k].value !in roots ==> Rooted(parents, roots, conflicting, parents[k].value);
    }
    assert Stable(parents, roots, conflicting, rooted);
    forall k | k in remaining ensures Rooted(parents, roots, conflicting, k) {
      StableIsRooted(parents, roots, conflicting, remaining, k);
    }
  }

  /** The ordering is what excludes cycles: two scopes that name each other are
      stable, and would survive, although neither is rooted. */
  lemma OrphanCycleIsStable(a: Source, b: Source, roots: set<Source>)
    requires a !in roots && b !in roots
    ensures var parents: Parents := map[a := Some(b), b := Some(a)];
            && Stable(parents, roots, {}, {a, b})
            && !Rooted(parents, roots, {}, a) && !Rooted(parents, roots, {}, b)
  {
  }

  // ---------------------------------------------------------------- merging worker graphs

  datatype Participant = Participant(
    sessionId: string, sourceUserSeq: nat,
    parentSessionId: string, parentSourceUserSeq: nat,
    parentLogicalCallId: string, packetKey: string, packetDigest: string,
    attemptIds: seq<string>)
  {
    function Key(): Source {
      Source(sessionId, sourceUserSeq)
    }

    function ParentKey(): Source {
      Source(parentSessionId, parentSourceUserSeq)
    }
  }

  /** A scope's attempts are what later binds usage rows to it. */
  datatype Scope = Scope(participant: Participant, attempts: set<string>)
  {
    ghost predicate Valid() {
      && participant.ParentKey().seqNo < participant.Key().seqNo
      && forall id :: id in attempts <==> id in participant.attemptIds
    }
  }

  datatype Graph = Graph(scopes: map<Source, Scope>, claimedSources: set<Source>, claimedAttempts: set<string>)
  {
    /** Every scope is keyed by itself, younger than its parent, and holds the
        attempts that its participant lists. */
    ghost predicate Valid() {
      forall k | k in scopes :: scopes[k].Valid() && scopes[k].participant.Key() == k
    }
  }

  /** Which participant each graph gives each worker source. */
  ghost function Observed(graphs: seq<Graph>): set<(Source, Participant)> {
    set g, k | g in graphs && k in g.scopes :: (k, g.scopes[k].participant)
  }

  /** Every graph that holds `k` gives it the participant `p`. */
  ghost predicate Agreed(seen: set<(Source, Participant)>, k: Source, p: Participant) {
    (k, p) in seen && !Contested(seen, (k, p))
  }

  /** `k` has one agreed participant, is no root, and its agreed chain of
      parents reaches a root. No order of the graphs enters. */
  ghost predicate Lineal(seen: set<(Source, Participant)>, roots: set<Source>, k: Source)
    decreases k.seqNo
  {
    k !in roots
    && exists p :: Agreed(seen, k, p)
                   && (p.ParentKey() in roots || (p.ParentKey().seqNo < k.seqNo && Lineal(seen, roots, p.ParentKey())))
  }

  /** What merging has recorded about the observations so far. */
  ghost predicate Merged(seen: set<(Source, Participant)>, roots: set<Source>, scopes: map<Source, Scope>,
      conflicting: set<Source>) {
    && (forall k | k in scopes :: k !in roots && (k, scopes[k].participant) in seen)
    && (forall p | p in seen :: p.0 in roots || p.0 in scopes)
    && (forall p | p in seen :: p.0 in conflicting <==> p.0 in roots || Contested(seen, p))
    && conflicting <= set p | p in seen :: p.0
  }

  lemma OthersUncontested(seen: set<(Source, Participant)>, k: Source, v: Participant)
    ensures forall p | p in seen && p.0 != k :: Contested(seen + {(k, v)}, p) <==> Contested(seen, p)
  {
  }

  lemma MergeNew(seen: set<(Source, Participant)>, roots: set<Source>, scopes: map<Source, Scope>,
      conflicting: set<Source>, k: Source, scope: Scope)
    requires Merged(seen, roots, scopes, conflicting) && k !in roots && k !in scopes
    ensures Merged(seen + {(k, scope.participant)}, roots, scopes[k := scope], conflicting)
  {
    OthersUncontested(seen, k, scope.participant);
    assert !Contested(seen + {(k, scope.participant)}, (k, scope.participant));
  }

  lemma MergeSame(seen: set<(Source, Participant)>, roots: set<Source>, scopes: map<Source, Scope>,
      conflicting: set<Source>, k: Source, scope: Scope)
    requires Merged(seen, roots, scopes, conflicting) && k in scopes && scopes[k].participant == scope.participant
    ensures Merged(seen + {(k, scope.participant)}, roots, scopes[k := scope], conflicting)
  {
    assert seen + {(k, scope.participant)} == seen;
  }

  lemma MergeConflict(seen: set<(Source, Participant)>, roots: set<Source>, scopes: map<Source, Scope>,
      conflicting: set<Source>, k: Source, scope: Scope)
    requires Merged(seen, roots, scopes, conflicting)
    requires k in roots || (k in scopes && scopes[k].participant != scope.participant)
    ensures Merged(seen + {(k, scope.participant)}, roots, scopes, conflicting + {k})
  {
    var now := seen + {(k, scope.participant)};
    OthersUncontested(seen, k, scope.participant);
    assert (k, scope.participant) in now;
    if k !in roots {
      var stored := (k, scopes[k].participant);
      assert stored in now;
      assert forall p | p in now && p.0 == k :: Contested(now, p);
    }
  }

  /** Comparing with the stored scope alone finds every disagreement. */
  lemma MergeOne(seen: set<(Source, Participant)>, roots: set<Source>, scopes: map<Source, Scope>,
      conflicting: set<Source>, k: Source, scope: Scope)
    requires Merged(seen, roots, scopes, conflicting)
    ensures var conflict := k in roots || (k in scopes && scopes[k].participant != scope.participant);
            Merged(seen + {(k, scope.participant)}, roots,
                   if conflict then scopes else scopes[k := scope],
                   if conflict then conflicting + {k} else conflicting)
  {
    hide Merged;
    if k in roots || (k in scopes && scopes[k].participant != scope.participant) {
      MergeConflict(seen, roots, scopes, conflicting, k, scope);
    } else if k in scopes {
      MergeSame(seen, roots, scopes, conflicting, k, scope);
    } else {
      MergeNew(seen, roots, scopes, conflicting, k, scope);
    }
  }

  method MergeGraph(g: Graph, roots: set<Source>, scopes: map<Source, Scope>, conflicting: set<Source>,
      ghost seen: set<(Source, Participant)>)
    returns (scopes': map<Source, Scope>, conflicting': set<Source>)
    requires Merged(seen, roots, scopes, conflicting)
    ensures Merged(seen + Observed([g]), roots, scopes', conflicting')
    ensures forall k | k in scopes' ::
              (k in scopes && scopes'[k] == scopes[k]) || (k in g.scopes && scopes'[k] == g.scopes[k])
  {
    hide Merged;
    scopes', conflicting' := scopes, conflicting;
    ghost var now := seen;
    var todo := g.scopes.Keys;
    while todo != {}
      invariant todo <= g.scopes.Keys
      invariant now == seen + set k | k in g.scopes && k !in todo :: (k, g.scopes[k].participant)
      invariant Merged(now, roots, scopes', conflicting')
      invariant forall k | k in scopes' ::
                  (k in scopes && scopes'[k] == scopes[k]) || (k in g.scopes && scopes'[k] == g.scopes[k])
    {
      var k :| k in todo;
      todo := todo - {k};
      MergeOne(now, roots, scopes', conflicting', k, g.scopes[k]);
      now := now + {(k, g.scopes[k].participant)};
      if k in roots || (k in scopes' && scopes'[k].participant != g.scopes[k].participant) {
        conflicting' := conflicting' + {k};
      } else {
        scopes' := scopes'[k := g.scopes[k]];
      }
    }
    assert Observed([g]) == set k | k in g.scopes :: (k, g.scopes[k].participant);
    assert now == seen + Observed([g]);
  }

  lemma ObservedStep(graphs: seq<Graph>, g: Graph)
    ensures Observed(graphs + [g]) == Observed(graphs) + Observed([g])
  {
  }

  function ParentsOf(scopes: map<Source, Scope>): Parents {
    map k | k in scopes :: Some(scopes[k].participant.ParentKey())
  }

  /** Some graph holds this scope. */
  ghost predicate Given(graphs: seq<Graph>, k: Source, scope: Scope) {
    exists g :: g in graphs && k in g.scopes && g.scopes[k] == scope
  }

  /** The merged graph holds exactly the lineal worker sources, each with its
      agreed participant and the attempts that some graph gives it, and loses no
      claim. */
  ghost predicate IsMerge(graphs: seq<Graph>, roots: set<Source>, result: Graph) {
    ScopesMerged(graphs, roots, result.scopes) && ClaimsMerged(graphs, result)
  }

  ghost predicate ScopesMerged(graphs: seq<Graph>, roots: set<Source>, scopes: map<Source, Scope>) {
    && (forall k :: k in scopes <==> Lineal(Observed(graphs), roots, k))
    && (forall k | k in scopes :: Agreed(Observed(graphs), k, scopes[k].participant) && Given(graphs, k, scopes[k]))
  }

  ghost predicate ClaimsMerged(graphs: seq<Graph>, result: Graph) {
    && (forall s :: s in result.claimedSources <==> exists g :: g in graphs && s in g.claimedSources)
    && (forall a :: a in result.claimedAttempts <==> exists g :: g in graphs && a in g.claimedAttempts)
  }

  method MergeGraphs(graphs: seq<Graph>, roots: set<Source>) returns (result: Graph)
    requires forall g | g in graphs :: g.Valid()
    ensures IsMerge(graphs, roots, result)
  {
    hide Merged, Given, AllGiven, Observed, Agreed, Rooted, Lineal;
    var scopes, conflicting := map[], {};
    var claimedSources, claimedAttempts := {}, {};
    NothingMerged(graphs, roots);
    for n := 0 to |graphs|
      invariant Merged(Observed(graphs[..n]), roots, scopes, conflicting)
      invariant AllGiven(graphs, scopes)
      invariant forall s :: s in claimedSources <==> exists i :: 0 <= i < n && s in graphs[i].claimedSources
      invariant forall a :: a in claimedAttempts <==> exists i :: 0 <= i < n && a in graphs[i].claimedAttempts
    {
      assert graphs[..n + 1] == graphs[..n] + [graphs[n]];
      ObservedStep(graphs[..n], graphs[n]);
      ghost var before := scopes;
      scopes, conflicting := MergeGraph(graphs[n], roots, scopes, conflicting, Observed(graphs[..n]));
      MergedIsGiven(graphs, n, before, scopes);
      claimedSources := claimedSources + graphs[n].claimedSources;
      claimedAttempts := claimedAttempts + graphs[n].claimedAttempts;
    }
    assert graphs[..|graphs|] == graphs;
    MergedAscends(graphs, roots, scopes, conflicting);
    var remaining := Prune(ParentsOf(scopes), roots, conflicting);
    PruneIsRooted(ParentsOf(scopes), roots, conflicting, remaining);
    forall k ensures Rooted(ParentsOf(scopes), roots, conflicting, k) <==> Lineal(Observed(graphs), roots, k) {
      RootedIsLineal(Observed(graphs), roots, scopes, conflicting, k);
    }
    forall k | k in remaining ensures k in scopes && Agreed(Observed(graphs), k, scopes[k].participant) {
      RootedIsAgreed(Observed(graphs), roots, scopes, conflicting, k);
    }
    RemainingGiven(graphs, scopes, remaining);
    result := Graph(map k | k in remaining :: scopes[k], claimedSources, claimedAttempts);
  }

  ghost predicate AllGiven(graphs: seq<Graph>, scopes: map<Source, Scope>) {
    forall k | k in scopes :: Given(graphs, k, scopes[k])
  }

  lemma MergedIsGiven(graphs: seq<Graph>, n: nat, before: map<Source, Scope>, after: map<Source, Scope>)
    requires n < |graphs| && AllGiven(graphs, before)
    requires forall k | k in after :: (k in before && after[k] == before[k])
                                      || (k in graphs[n].scopes && after[k] == graphs[n].scopes[k])
    ensures AllGiven(graphs, after)
  {
    assert graphs[n] in graphs;
  }

  lemma RemainingGiven(graphs: seq<Graph>, scopes: map<Source, Scope>, remaining: set<Source>)
    requires AllGiven(graphs, scopes) && remaining <= scopes.Keys
    ensures forall k | k in remaining :: Given(graphs, k, scopes[k])
  {
  }

  lemma NothingMerged(graphs: seq<Graph>, roots: set<Source>)
    ensures Merged(Observed([]), roots, map[], {}) && AllGiven(graphs, map[])
  {
  }

  lemma MergedAscends(graphs: seq<Graph>, roots: set<Source>, scopes: map<Source, Scope>, conflicting: set<Source>)
    requires Merged(Observed(graphs), roots, scopes, conflicting)
    requires forall g | g in graphs :: g.Valid()
    ensures Younger(ParentsOf(scopes))
  {
  }

  lemma RootedIsAgreed(seen: set<(Source, Participant)>, roots: set<Source>, scopes: map<Source, Scope>,
      conflicting: set<Source>, k: Source)
    requires Merged(seen, roots, scopes, conflicting)
    requires Rooted(ParentsOf(scopes), roots, conflicting, k)
    ensures k in scopes && k !in roots && Agreed(seen, k, scopes[k].participant)
  {
  }

  lemma {:induction false} RootedIsLineal(seen: set<(Source, Participant)>, roots: set<Source>,
      scopes: map<Source, Scope>, conflicting: set<Source>, k: Source)
    requires Merged(seen, roots, scopes, conflicting)
    ensures Rooted(ParentsOf(scopes), roots, conflicting, k) <==> Lineal(seen, roots, k)
    decreases k.seqNo
  {
    if Rooted(ParentsOf(scopes), roots, conflicting, k) {
      RootedIsAgreed(seen, roots, scopes, conflicting, k);
      var p := scopes[k].participant.ParentKey();
      if p !in roots {
        RootedIsLineal(seen, roots, scopes, conflicting, p);
      }
    }
    if Lineal(seen, roots, k) {
      var p :| Agreed(seen, k, p)
          && (p.ParentKey() in roots || (p.ParentKey().seqNo < k.seqNo && Lineal(seen, roots, p.ParentKey())));
      assert scopes[k].participant == p;
      if p.ParentKey() !in roots {
        RootedIsLineal(seen, roots, scopes, conflicting, p.ParentKey());
      }
    }
  }

  /** Merging in any order gives the same graph: its scopes with their attempts,
      and its claims. */
  lemma MergeIsOrderFree(graphs: seq<Graph>, permuted: seq<Graph>, roots: set<Source>, a: Graph, b: Graph)
    requires multiset(graphs) == multiset(permuted) && forall g | g in graphs :: g.Valid()
    requires IsMerge(graphs, roots, a) && IsMerge(permuted, roots, b)
    ensures a == b
  {
    hide ScopesMerged, ClaimsMerged;
    SameObserved(graphs, permuted);
    SameScopes(graphs, permuted, roots, a.scopes, b.scopes);
    SameClaims(graphs, permuted, a, b);
  }

  lemma SameScopes(graphs: seq<Graph>, permuted: seq<Graph>, roots: set<Source>, a: map<Source, Scope>,
      b: map<Source, Scope>)
    requires forall g | g in graphs :: g.Valid()
    requires Observed(graphs) == Observed(permuted) && forall g :: g in graphs <==> g in permuted
    requires ScopesMerged(graphs, roots, a) && ScopesMerged(permuted, roots, b)
    ensures a == b
  {
    hide Given, Observed, Agreed, Lineal, Graph.Valid;
    forall k | k in a ensures k in b && a[k] == b[k] {
      SameScope(graphs, permuted, k, a[k], b[k]);
    }
    assert a.Keys == b.Keys;
  }

  lemma SameClaims(graphs: seq<Graph>, permuted: seq<Graph>, a: Graph, b: Graph)
    requires forall g :: g in graphs <==> g in permuted
    requires ClaimsMerged(graphs, a) && ClaimsMerged(permuted, b)
    ensures a.claimedSources == b.claimedSources && a.claimedAttempts == b.claimedAttempts
  {
  }

  lemma SameObserved(graphs: seq<Graph>, permuted: seq<Graph>)
    requires multiset(graphs) == multiset(permuted)
    ensures Observed(graphs) == Observed(permuted) && forall g :: g in graphs <==> g in permuted
  {
    forall g: Graph ensures g in graphs <==> g in permuted {
      assert g in graphs <==> g in multiset(graphs);
    }
  }

  lemma SameScope(graphs: seq<Graph>, permuted: seq<Graph>, k: Source, x: Scope, y: Scope)
    requires forall g | g in graphs :: g.Valid()
    requires forall g :: g in graphs <==> g in permuted
    requires Given(graphs, k, x) && Given(permuted, k, y)
    requires Agreed(Observed(graphs), k, x.participant) && Agreed(Observed(graphs), k, y.participant)
    ensures x == y
  {
    assert x.participant == y.participant;
    assert x.Valid() && y.Valid();
    assert x.attempts == y.attempts;
  }
}
