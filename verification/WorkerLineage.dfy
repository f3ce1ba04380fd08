/** Which delegated workers survive (scripts/session-comparison.ts,
    readWorkerUsageGraph). The traversal judges every link by what its parent's
    scope held at the time, and deletes unproved descendants afterwards; the
    result does not depend on that order. It is described here by recursion on
    the sequence numbers alone, and the traversal is proved to compute it. */
module WorkerLineage {
  import opened Identifiers
  import opened LastOwner
  import opened Lineage
  import opened WorkerGraph
  import opened WorkerLinks

  /** The visited sources of one traversal. */
  datatype View = View(db: Db, c: Context, claimedRoots: seq<Source>, seen: set<Source>)
  {
    /** The links that name `k`. */
    ghost function Naming(k: Source): set<Link> {
      set l | l in LinksFrom(db, seen) && NamesChild(db, l, k)
    }

    /** A claimed root is judged at its place in the claimed order: only claimed
        roots before it can have admitted it by then. */
    ghost predicate Ready(k: Source) {
      k in claimedRoots ==> Named(db, LinksFrom(db, Before(claimedRoots, k)), k)
    }

    /** The attempts that the links to `k` prove, judged by their parents' own. */
    ghost function Own(k: Source): set<string>
      decreases k.seqNo, 0
    {
      set l, id | l in Naming(k) && l.0.seqNo < k.seqNo && id in Owned(db, c, Visible(l.0), l.0, l.1, k) :: id
    }

    ghost function Visible(k: Source): set<string>
      decreases k.seqNo, 1
    {
      if Ready(k) then Own(k) else {}
    }

    /** Every link that names `k` is one of `p`'s, is proved and has one owner. */
    ghost predicate SoleParent(k: Source, p: Source) {
      && (exists l :: l in Naming(k))
      && (forall l | l in Naming(k) :: l.0 == p && ValidLink(db, c, Visible(p), p, l.1, k))
      && forall l, m | l in Naming(k) && m in Naming(k) :: l.1.Owner() == m.1.Owner()
    }

    /** `k` is no public root, and its sole parent is one or survives itself. */
    ghost predicate Survives(k: Source)
      decreases k.seqNo
    {
      k !in c.RootKeys() && exists p ::
                              p in seen && p.seqNo < k.seqNo && SoleParent(k, p) && (p in c.RootKeys() || Survives(p))
    }

    /** The scope that a survivor has: its own attempts, under its sole parent. */
    ghost predicate Holds(k: Source, scope: Scope) {
      && scope.attempts == Own(k)
      && exists l :: l in Naming(k) && SoleParent(k, l.0) && Admissible(db, c, Visible(l.0), l.0, l.1, k, scope)
    }
  }

  // ---------------------------------------------------------------- what the records say

  /** The links alone: some link names `k`, all of them are proved by what their
      parents lent, and they have one owner. */
  ghost predicate Settled(v: View, at: map<Source, set<string>>, k: Source) {
    && k !in v.c.RootKeys() && (exists l :: l in v.Naming(k))
    && (forall l | l in v.Naming(k) :: ValidAt(v.db, v.c, at, l, k))
    && forall l, m | l in v.Naming(k) && m in v.Naming(k) :: l.1.Owner() == m.1.Owner()
  }

  lemma ClaimantsMean(v: View, k: Source, owner: Fields)
    ensures (k, owner) in Claimants(v.db, LinksFrom(v.db, v.seen))
            <==> exists l :: l in v.Naming(k) && l.1.Owner() == owner
  {
    hide LinksFrom, Marker.Owner, Marker.Child;
    if l :| l in LinksFrom(v.db, v.seen) && NamesChild(v.db, l, k) && l.1.Owner() == owner {
      assert l in v.Naming(k);
    }
  }

  lemma ContestedMeans(v: View, k: Source)
    ensures k in ContestedKeys(Claimants(v.db, LinksFrom(v.db, v.seen)))
            <==> exists l, m :: l in v.Naming(k) && m in v.Naming(k) && l.1.Owner() != m.1.Owner()
  {
    hide LinksFrom, Marker.Owner, Claimants, View.Naming;
    var claims := Claimants(v.db, LinksFrom(v.db, v.seen));
    forall owner {
      ClaimantsMean(v, k, owner);
    }
    if k in ContestedKeys(claims) {
      var p :| p in claims && Contested(claims, p) && p.0 == k;
      var q :| q in claims && q.0 == k && q.1 != p.1;
      assert p == (k, p.1) && q == (k, q.1);
    }
    if l, m :| l in v.Naming(k) && m in v.Naming(k) && l.1.Owner() != m.1.Owner() {
      assert (k, m.1.Owner()) in claims;
      assert Contested(claims, (k, l.1.Owner()));
    }
  }

  lemma UnblamedIsSettled(v: View, at: map<Source, set<string>>, s: State, k: Source)
    requires Exactly(v.db, v.c, at, s, LinksFrom(v.db, v.seen))
    ensures k in s.scopes && k !in s.conflicting <==> Settled(v, at, k)
  {
    hide Tracks, LinksFrom, NamesChild, ValidAt, AdmittedBy, ContestedKeys, Claimants, Marker.Owner;
    ContestedMeans(v, k);
    assert forall l :: l in v.Naming(k) <==> l in LinksFrom(v.db, v.seen) && NamesChild(v.db, l, k);
    assert Named(v.db, LinksFrom(v.db, v.seen), k) <==> exists l :: l in v.Naming(k);
    assert Unproved(v.db, v.c, at, LinksFrom(v.db, v.seen), k)
           <==> exists l :: l in v.Naming(k) && !ValidAt(v.db, v.c, at, l, k);
    assert Proved(v.db, v.c, at, LinksFrom(v.db, v.seen), k)
           <==> exists l :: l in v.Naming(k) && ValidAt(v.db, v.c, at, l, k);
  }

  /** A proved child points back at its parent, so it is nobody else's stray. */
  lemma ProvedIsNoStray(v: View, at: map<Source, set<string>>, k: Source)
    requires v.db.WellFormed() && Proved(v.db, v.c, at, LinksFrom(v.db, v.seen), k)
    ensures !Stray(v.db, v.seen, k)
  {
    var l :| l in LinksFrom(v.db, v.seen) && NamesChild(v.db, l, k) && ValidAt(v.db, v.c, at, l, k);
    ValidLinkNames(v.db, v.c, at[l.0], l.0, l.1, k);
    hide ValidLink, Db.Candidate;
    forall p | p in v.seen && k in v.db.OrphansOf(p) ensures k in Children(v.db.Candidates(p)) {
      assert v.db.inputs[p].id == v.db.inputs[l.0].id;
      assert l.1 in v.db.Candidates(p);
    }
  }

  // ---------------------------------------------------------------- what parents lent

  /** How the traversal ended. */
  ghost predicate Traced(v: View, at: map<Source, set<string>>, s: State) {
    && v.db.WellFormed() && at.Keys == v.seen
    && Exactly(v.db, v.c, at, s, LinksFrom(v.db, v.seen))
    && AllLendRight(v.db, v.c, v.claimedRoots, at, s.scopes, v.seen)
  }

  /** A source with an uncontested scope lent its children what it owns, unless
      it is a claimed root that came too early. */
  lemma LentVisible(v: View, at: map<Source, set<string>>, s: State, p: Source)
    requires Traced(v, at, s) && p in v.seen
    requires p in s.scopes && p !in s.conflicting && s.scopes[p].attempts == v.Own(p)
    ensures at[p] == v.Visible(p)
  {
    hide Tracks, LinksFrom, NamesChild, ValidAt, AdmittedBy, Claimants, ContestedKeys, View.Own, Stray, Db.WellFormed;
    assert LentRight(v.db, v.c, v.claimedRoots, at, s.scopes, LinksFrom(v.db, v.seen), v.seen, p);
    ProvedIsNoStray(v, at, p);
    if p in v.claimedRoots {
      LinksGrow(v.db, Before(v.claimedRoots, p), v.seen);
    }
  }

  /** Where the parent is a root, or lent what is visible, the records judge its
      links as the recursion does. */
  ghost predicate Judges(v: View, at: map<Source, set<string>>, p: Source) {
    p in at && (p in v.c.RootKeys() || at[p] == v.Visible(p))
  }

  lemma SameJudgement(v: View, at: map<Source, set<string>>, p: Source, m: Marker, k: Source)
    requires Judges(v, at, p)
    ensures ValidLink(v.db, v.c, at[p], p, m, k) <==> ValidLink(v.db, v.c, v.Visible(p), p, m, k)
    ensures Owned(v.db, v.c, at[p], p, m, k) == Owned(v.db, v.c, v.Visible(p), p, m, k)
  {
    hide ValidLink, Owned, View.Visible;
    if p in v.c.RootKeys() {
      RootLinks(v.db, v.c, p, at[p], v.Visible(p), m, k);
      RootOwned(v.db, v.c, p, at[p], v.Visible(p), m, k);
    }
  }

  lemma SettledIsSole(v: View, at: map<Source, set<string>>, k: Source, p: Source)
    requires Settled(v, at, k) && Judges(v, at, p) && exists l :: l in v.Naming(k) && l.0 == p
    ensures v.SoleParent(k, p) && k !in v.c.RootKeys()
  {
    hide View.Naming, View.Visible, Owned, Judges;
    var l :| l in v.Naming(k) && l.0 == p;
    ValidLinkNames(v.db, v.c, at[p], p, l.1, k);
    hide Marker.Owner;
    forall m | m in v.Naming(k) ensures m.0 == p && ValidLink(v.db, v.c, v.Visible(p), p, m.1, k) {
      ValidLinkNames(v.db, v.c, at[m.0], m.0, m.1, k);
      OneOwnerOneParent(l.1, m.1, p, m.0);
      SameJudgement(v, at, p, m.1, k);
    }
  }

  lemma SoleIsSettled(v: View, at: map<Source, set<string>>, k: Source, p: Source)
    requires v.SoleParent(k, p) && Judges(v, at, p) && k !in v.c.RootKeys()
    ensures Settled(v, at, k)
  {
    hide View.Naming, View.Visible, ValidLink, Marker.Owner;
    forall l | l in v.Naming(k) ensures ValidAt(v.db, v.c, at, l, k) {
      SameJudgement(v, at, p, l.1, k);
    }
  }

  /** All links of a sole parent prove the same attempts. */
  lemma OwnIsOwned(v: View, k: Source, p: Source, l: Link)
    requires v.SoleParent(k, p) && l in v.Naming(k)
    ensures v.Own(k) == Owned(v.db, v.c, v.Visible(p), p, l.1, k)
  {
    hide View.Naming, View.Visible, Owned, Marker.Owner;
    ValidLinkNames(v.db, v.c, v.Visible(p), p, l.1, k);
    forall m | m in v.Naming(k)
      ensures Owned(v.db, v.c, v.Visible(p), p, m.1, k) == Owned(v.db, v.c, v.Visible(p), p, l.1, k) {
      ValidLinkNames(v.db, v.c, v.Visible(p), p, m.1, k);
      SameOwnerSameAttempts(v.db, v.c, v.Visible(p), p, m.1, l.1, k);
    }
  }

  // ---------------------------------------------------------------- survivors

  /** The recorded scope of `k` under its parent `p`. */
  lemma AdmittedUnder(v: View, at: map<Source, set<string>>, s: State, k: Source) returns (l: Link)
    requires Traced(v, at, s) && k in s.scopes
    ensures l in v.Naming(k) && l.0 in v.seen && l.0 in at && Admissible(v.db, v.c, at[l.0], l.0, l.1, k, s.scopes[k])
    ensures s.scopes[k].participant.ParentKey() == l.0 && l.0.seqNo < k.seqNo
  {
    hide Tracks, ConflictsExact, NamesChild, ValidLink, Owned, Db.WellFormed, AllLendRight;
    l :| l in LinksFrom(v.db, v.seen) && AdmittedBy(v.db, v.c, at, l, k, s.scopes[k]);
    LinksHaveParents(v.db, v.seen);
  }

  lemma ParentJudges(v: View, at: map<Source, set<string>>, s: State, p: Source)
    requires Traced(v, at, s) && p in v.seen
    requires p in v.c.RootKeys()
        || (Rooted(ParentsOf(s.scopes), v.c.RootKeys(), s.conflicting, p) && s.scopes[p].attempts == v.Own(p))
    ensures Judges(v, at, p)
  {
    if p !in v.c.RootKeys() {
      LentVisible(v, at, s, p);
    }
    hide View.Own, View.Visible, Exactly, AllLendRight, LinksFrom;
  }

  /** A survivor's recorded scope is the one that the recursion gives it. */
  lemma SettledHolds(v: View, at: map<Source, set<string>>, s: State, k: Source, p: Source)
    requires Traced(v, at, s) && k in s.scopes && v.SoleParent(k, p) && Judges(v, at, p)
    ensures s.scopes[k].participant.ParentKey() == p && v.Holds(k, s.scopes[k])
  {
    var l := AdmittedUnder(v, at, s, k);
    assert l.0 == p;
    OwnIsOwned(v, k, p, l);
    SameJudgement(v, at, p, l.1, k);
    hide Traced, View.Naming, View.SoleParent, View.Own, View.Visible, Owned, Judges;
  }

  /** Deleting from the records leaves exactly the survivors, each with the scope
      that it has by recursion. */
  lemma {:induction false} RootedIsSurvivor(v: View, at: map<Source, set<string>>, s: State, k: Source)
    requires Traced(v, at, s)
    ensures Rooted(ParentsOf(s.scopes), v.c.RootKeys(), s.conflicting, k) <==> v.Survives(k)
    ensures v.Survives(k) ==> k in s.scopes && v.Holds(k, s.scopes[k])
    decreases k.seqNo
  {
    hide Exactly, AllLendRight, View.Naming, View.SoleParent, View.Own, View.Visible, Admissible, Settled, Judges;
    UnblamedIsSettled(v, at, s, k);
    if Rooted(ParentsOf(s.scopes), v.c.RootKeys(), s.conflicting, k) {
      var l := AdmittedUnder(v, at, s, k);
      var p := l.0;
      if p !in v.c.RootKeys() {
        RootedIsSurvivor(v, at, s, p);
      }
      ParentJudges(v, at, s, p);
      SettledIsSole(v, at, k, p);
      SettledHolds(v, at, s, k, p);
      assert p in v.c.RootKeys() || v.Survives(p);
    }
    if v.Survives(k) {
      var p :| p in v.seen && p.seqNo < k.seqNo && v.SoleParent(k, p) && (p in v.c.RootKeys() || v.Survives(p));
      if p !in v.c.RootKeys() {
        RootedIsSurvivor(v, at, s, p);
      }
      ParentJudges(v, at, s, p);
      SoleIsSettled(v, at, k, p);
      SettledHolds(v, at, s, k, p);
    }
  }

  lemma RecordsAscend(v: View, at: map<Source, set<string>>, s: State)
    requires Traced(v, at, s)
    ensures Younger(ParentsOf(s.scopes))
    ensures forall k | k in s.scopes :: s.scopes[k].Valid() && s.scopes[k].participant.Key() == k
  {
    hide Traced, View.Naming, Owned;
    forall k | k in s.scopes
      ensures s.scopes[k].participant.ParentKey().seqNo < k.seqNo && s.scopes[k].Valid()
          && s.scopes[k].participant.Key() == k
    {
      var l := AdmittedUnder(v, at, s, k);
    }
  }

  /** The whole discovery: it halts, claims the cost of everything it can reach,
      and returns exactly the survivors, each with the scope it has by recursion. */
  method ReadWorkerGraph(db: Db, c: Context, claimedRoots: seq<Source>) returns (graph: Graph, ghost seen: set<Source>)
    requires db.WellFormed()
    ensures Reached(db, (set r | r in claimedRoots), seen)
    ensures graph.claimedSources == NamesOf(db, seen) && graph.claimedAttempts == AttemptNamesOf(db, seen)
    ensures graph.Valid()
    ensures forall k :: k in graph.scopes <==> View(db, c, claimedRoots, seen).Survives(k)
    ensures forall k | k in graph.scopes :: View(db, c, claimedRoots, seen).Holds(k, graph.scopes[k])
  {
    hide *;
    var s;
    ghost var at;
    s, seen, at := Traverse(db, c, claimedRoots);
    ghost var v := View(db, c, claimedRoots, seen);
    assert Traced(v, at, s) by {
      TracedMeans(v, at, s);
    }
    RecordsAscend(v, at, s);
    var remaining := Prune(ParentsOf(s.scopes), c.RootKeys(), s.conflicting);
    PruneIsRooted(ParentsOf(s.scopes), c.RootKeys(), s.conflicting, remaining);
    forall k {
      RootedIsSurvivor(v, at, s, k);
    }
    graph := Graph(map k | k in remaining :: s.scopes[k], s.claimedSources, s.claimedAttempts);
    GraphValid(s, graph);
  }

  lemma TracedMeans(v: View, at: map<Source, set<string>>, s: State)
    ensures Traced(v, at, s) <==> && v.db.WellFormed() && at.Keys == v.seen
                                  && Exactly(v.db, v.c, at, s, LinksFrom(v.db, v.seen))
                                  && AllLendRight(v.db, v.c, v.claimedRoots, at, s.scopes, v.seen)
  {
  }

  lemma GraphValid(s: State, graph: Graph)
    requires forall k | k in s.scopes :: s.scopes[k].Valid() && s.scopes[k].participant.Key() == k
    requires forall k | k in graph.scopes :: k in s.scopes && graph.scopes[k] == s.scopes[k]
    ensures graph.Valid()
  {
  }

  // ---------------------------------------------------------------- order of the roots

  /** Two traversals of one store in which the same claimed roots that are not
      public have been named by the time of their visit. */
  ghost predicate Reordered(v: View, w: View) {
    && w == v.(claimedRoots := w.claimedRoots)
    && forall k | k !in v.c.RootKeys() :: v.Ready(k) <==> w.Ready(k)
  }

  /** As is the case when only public roots are claimed. */
  lemma PublicRootsReorder(v: View, w: View)
    requires w == v.(claimedRoots := w.claimedRoots)
    requires forall r | r in v.claimedRoots || r in w.claimedRoots :: r in v.c.RootKeys()
    ensures Reordered(v, w)
  {
  }

  lemma {:induction false} OwnIsOrderFree(v: View, w: View, k: Source)
    requires Reordered(v, w)
    ensures v.Own(k) == w.Own(k)
    decreases k.seqNo
  {
    forall l | l in v.Naming(k) && l.0.seqNo < k.seqNo
      ensures Owned(v.db, v.c, v.Visible(l.0), l.0, l.1, k) == Owned(v.db, v.c, w.Visible(l.0), l.0, l.1, k)
    {
      OwnIsOrderFree(v, w, l.0);
      if l.0 in v.c.RootKeys() {
        RootOwned(v.db, v.c, l.0, v.Visible(l.0), w.Visible(l.0), l.1, k);
      }
    }
    hide View.Visible, Owned, NamesChild;
  }

  lemma SoleIsOrderFree(v: View, w: View, k: Source, p: Source)
    requires Reordered(v, w)
    ensures v.SoleParent(k, p) <==> w.SoleParent(k, p)
  {
    OwnIsOrderFree(v, w, p);
    hide View.Own, ValidLink, NamesChild, Marker.Owner;
    if p in v.c.RootKeys() {
      forall m {
        RootLinks(v.db, v.c, p, v.Visible(p), w.Visible(p), m, k);
      }
    }
  }

  lemma {:induction false} SurvivesReordered(v: View, w: View, k: Source)
    requires Reordered(v, w) && v.Survives(k)
    ensures w.Survives(k)
    decreases k.seqNo
  {
    hide View.SoleParent;
    var p :| p in v.seen && p.seqNo < k.seqNo && v.SoleParent(k, p) && (p in v.c.RootKeys() || v.Survives(p));
    SoleIsOrderFree(v, w, k, p);
    if p !in v.c.RootKeys() {
      SurvivesReordered(v, w, p);
    }
  }

  /** Then the order of the claimed roots matters neither to which workers survive,
      nor to their attempts. */
  lemma SurvivalIsOrderFree(v: View, w: View, k: Source)
    requires Reordered(v, w)
    ensures v.Survives(k) <==> w.Survives(k)
    ensures v.Own(k) == w.Own(k)
  {
    OwnIsOrderFree(v, w, k);
    if v.Survives(k) {
      SurvivesReordered(v, w, k);
    }
    if w.Survives(k) {
      SurvivesReordered(w, v, k);
    }
    hide View.Survives, View.Own;
  }

  // ---------------------------------------------------------------- ascending roots

  ghost predicate InOrder(claimedRoots: seq<Source>) {
    forall i, j | 0 <= i < j < |claimedRoots| :: claimedRoots[i].seqNo < claimedRoots[j].seqNo
  }

  lemma {:induction false} BeforeAre(claimedRoots: seq<Source>, k: Source, r: Source)
    requires InOrder(claimedRoots)
    ensures r in Before(claimedRoots, k) ==> r in claimedRoots
    ensures k in claimedRoots && r in claimedRoots && r.seqNo < k.seqNo ==> r in Before(claimedRoots, k)
  {
    if claimedRoots != [] && claimedRoots[0] != k {
      BeforeAre(claimedRoots[1..], k, r);
    }
  }

  /** The callers claim their roots in ascending order. A claimed source that is
      proved then has its scope in time if and only if its parent is claimed too. */
  lemma ReadyIffParentClaimed(v: View, k: Source, p: Source)
    requires InOrder(v.claimedRoots) && k in v.claimedRoots && forall r | r in v.claimedRoots :: r in v.seen
    requires v.SoleParent(k, p) && p.seqNo < k.seqNo
    ensures v.Ready(k) <==> p in v.claimedRoots
  {
    hide View.Visible, ValidLink, NamesChild, Marker.Owner, Db.Candidate;
    forall r {
      BeforeAre(v.claimedRoots, k, r);
    }
    var before := LinksFrom(v.db, Before(v.claimedRoots, k));
    if l :| l in before && NamesChild(v.db, l, k) {
      assert l in v.Naming(k);
    }
    var l :| l in v.Naming(k);
    if p in v.claimedRoots {
      assert l in before;
    }
  }

  // ---------------------------------------------------------------- descent

  /** A public root answers for the attempt. */
  ghost predicate FromRoot(db: Db, c: Context, id: string) {
    && id in db.attemptOwners && db.attemptOwners[id].sessionId == c.rootSessionId
    && db.attemptOwners[id].sourceUserSeq in c.roots && c.RootOwns(db.attemptOwners[id].sourceUserSeq, id)
  }

  /** Dispatch by dispatch, through scopes of the graph itself, the attempt
      descends from one that a public root answers for. */
  ghost predicate Descends(v: View, graph: Graph, k: Source, id: string)
    decreases k.seqNo
  {
    && k in graph.scopes && id in graph.scopes[k].attempts
    && exists l, caller :: l in v.Naming(k) && Dispatched(v.db, v.c, l.0, l.1, k, id, caller)
                       && (FromRoot(v.db, v.c, caller) || (l.0.seqNo < k.seqNo && Descends(v, graph, l.0, caller)))
  }

  /** Every attempt of a surviving scope descends from a public root. */
  lemma {:induction false} AttemptsDescend(v: View, graph: Graph, k: Source, id: string)
    requires forall j :: j in graph.scopes <==> v.Survives(j)
    requires forall j | j in graph.scopes :: v.Holds(j, graph.scopes[j])
    requires k in graph.scopes && id in graph.scopes[k].attempts
    ensures Descends(v, graph, k, id)
    decreases k.seqNo
  {
    hide View.Naming, View.Own, Dispatched, ValidLink, Owned, Admissible;
    var p :| p in v.seen && p.seqNo < k.seqNo && v.SoleParent(k, p) && (p in v.c.RootKeys() || v.Survives(p));
    var l :| l in v.Naming(k);
    OwnIsOwned(v, k, p, l);
    var caller := OwnedIsDispatched(v.db, v.c, v.Visible(p), p, l.1, k, id);
    if !FromRoot(v.db, v.c, caller) {
      assert caller in v.Own(p) && v.Survives(p);
      AttemptsDescend(v, graph, p, caller);
    }
  }
}
