/** One store with workers below workers (scripts/session-comparison.ts,
    readWorkerUsageGraph). The second worker is also claimed as a root that is
    not public. It is then visited before the first worker has admitted it, and
    its own worker is lost, although every link in the store is sound. */
module WorkerExample {
  import opened Chains
  import opened Identifiers
  import opened Json
  import opened WorkerGraph
  import opened WorkerLineage
  import opened WorkerLinks
  import L = LeaseChain

  /** The public root, its worker, that worker's worker, and the last worker. */
  const TOP := Source("r", 1)
  const WORKER := Source("w", 2)
  const CLAIMED := Source("r", 4)
  const LOWER := Source("x", 6)

  predicate Starts(parent: Source) {
    parent in {TOP, WORKER, CLAIMED}
  }

  function ChildOf(parent: Source): Source {
    if parent == TOP then WORKER else if parent == WORKER then CLAIMED else LOWER
  }

  function AttemptIn(s: Source): string {
    if s == TOP then "l" else if s == WORKER then "m" else if s == CLAIMED then "k" else "n"
  }

  function Hash(): string {
    seq(64, i => 'a')
  }

  function FieldsOf(parent: Source): Fields {
    Fields(Str(parent.sessionId), Num(parent.seqNo as real),
           Str("task:" + parent.sessionId + "#" + Decimal(parent.seqNo)),
           Str("c"), Str("k"), Str(Hash()), Str("i"))
  }

  /** The marker by which a parent starts its child, right after the child's input. */
  function MarkerOf(parent: Source): Marker {
    var child := ChildOf(parent);
    Marker(child.seqNo + 1, true, Absent, Some(child.sessionId), Some(child.seqNo), Some(AttemptIn(child)),
           FieldsOf(parent))
  }

  function BindingOf(parent: Source): Binding {
    Binding(true, Some(Packet(Str("i"), Hash())), FieldsOf(parent))
  }

  function LeaseOf(parent: Source): L.Lease {
    L.Lease(Some(parent.seqNo), Some("task:" + parent.sessionId + "#" + Decimal(parent.seqNo)), Some("c"),
            Some(AttemptIn(parent)),
            Some("run_worker"), Some(Hash()), None, None)
  }

  /** The lease under which the child of `parent` runs. */
  function LeaseKeyOf(parent: Source): L.LeaseKey {
    ("s", AttemptIn(parent))
  }

  function CallMade(): Call {
    Call("run_worker", Hash(), "open")
  }

  function Store(): Db {
    Db(map["r" := [MarkerOf(TOP), MarkerOf(CLAIMED)], "w" := [MarkerOf(WORKER)]],
       map[TOP := Input("a", None, None), WORKER := Input("b", Some("a"), Some(BindingOf(TOP))),
           CLAIMED := Input("d", Some("b"), Some(BindingOf(WORKER))),
           LOWER := Input("e", Some("d"), Some(BindingOf(CLAIMED)))],
       map["w" := Metadata(true, FieldsOf(TOP)), "r" := Metadata(true, FieldsOf(WORKER)),
           "x" := Metadata(true, FieldsOf(CLAIMED))],
       {TOP, WORKER, CLAIMED, LOWER}, {"r", "w", "x"},
       map[WORKER := ["m"], CLAIMED := ["k"], LOWER := ["n"]],
       map[("w", "m") := [Some(LeaseKeyOf(TOP))], ("r", "k") := [Some(LeaseKeyOf(WORKER))],
           ("x", "n") := [Some(LeaseKeyOf(CLAIMED))]],
       map["r" := map[LeaseKeyOf(TOP) := LeaseOf(TOP), LeaseKeyOf(CLAIMED) := LeaseOf(CLAIMED)],
           "w" := map[LeaseKeyOf(WORKER) := LeaseOf(WORKER)]],
       map["l" := L.Owner("r", 1), "m" := L.Owner("w", 2), "k" := L.Owner("r", 4)],
       (session: string) => (source: nat) => L.Unreadable,
       map[(TOP, "c") := CallMade(), (WORKER, "c") := CallMade(), (CLAIMED, "c") := CallMade()])
  }

  function Roots(): Context {
    Context("r", {1}, None)
  }

  lemma Texts()
    ensures "a" != "b" && "a" != "d" && "a" != "e" && "b" != "d" && "b" != "e" && "d" != "e"
    ensures "r" != "w" && "r" != "x" && "w" != "x"
    ensures "l" != "m" && "l" != "k" && "l" != "n" && "m" != "k" && "m" != "n" && "k" != "n"
  {
    assert "a"[0] != "b"[0] && "a"[0] != "d"[0] && "a"[0] != "e"[0] && "b"[0] != "d"[0] && "b"[0] != "e"[0]
           && "d"[0] != "e"[0];
    assert "r"[0] != "w"[0] && "r"[0] != "x"[0] && "w"[0] != "x"[0];
    assert "l"[0] != "m"[0] && "l"[0] != "k"[0] && "l"[0] != "n"[0] && "m"[0] != "k"[0] && "m"[0] != "n"[0]
           && "k"[0] != "n"[0];
  }

  lemma Formats()
    ensures Digest(Hash()) && Exact(Str("c")) && Exact(Str("k")) && Exact(Str("i"))
  {
  }

  function CallOf(parent: Source): L.Parent {
    L.Parent(parent.sessionId, parent.seqNo, "c", Hash())
  }

  lemma Called(parent: Source)
    requires Starts(parent)
    ensures ParentCall(Store(), parent, MarkerOf(parent))
            && CallParent(Store(), parent, MarkerOf(parent)) == CallOf(parent)
  {
    Texts();
    Formats();
    assert (parent, "c") in Store().calls && Store().calls[(parent, "c")] == CallMade();
    hide Store, Hash, Exact, Digest;
  }

  lemma Leased(parent: Source)
    requires Starts(parent)
    ensures parent.sessionId in Store().leases && LeaseKeyOf(parent) in Store().leases[parent.sessionId]
    ensures Store().leases[parent.sessionId][LeaseKeyOf(parent)] == LeaseOf(parent)
    ensures AttemptIn(parent) in Store().attemptOwners
    ensures Store().attemptOwners[AttemptIn(parent)] == L.Owner(parent.sessionId, parent.seqNo)
  {
    Texts();
    hide LeaseOf;
  }

  /** A parent's lease proves the child's attempt if the parent owns its attempt;
      the public root's always does. */
  lemma LeaseProves(parent: Source, own: set<string>)
    requires Starts(parent)
    ensures L.ChildProves(StoreVia(Store(), Roots(), parent, own), CallOf(parent), Some(LeaseKeyOf(parent)))
            <==> parent == TOP || AttemptIn(parent) in own
  {
    Leased(parent);
    var store, call, key := StoreVia(Store(), Roots(), parent, own), CallOf(parent), LeaseKeyOf(parent);
    assert store.leases[key] == LeaseOf(parent);
    hide Store;
    assert At(L.LeaseStep(store, call), Some(key), 0) == Some(key);
    assert L.FirstMatch(store, call, Some(key), key);
    L.MatchDecides(store, call, Some(key), key);
    assert At(L.ControlStep(store, call), Some(parent.seqNo), 0) == Some(parent.seqNo);
    assert L.LeadsBack(store, call, L.OwnerSource(store, store.leases[key]));
  }

  lemma OnlyPointer(parent: Source, own: set<string>, child: Source, id: string, key: L.LeaseKey)
    requires Store().PointersOf(child.sessionId, id) == [Some(key)]
    ensures AttemptProved(Store(), Roots(), parent, own, child, id, CallOf(parent))
            <==> L.ChildProves(StoreVia(Store(), Roots(), parent, own), CallOf(parent), Some(key))
  {
    hide L.ChildProves, L.ChildBreaks, StoreVia, Store, Roots, CallOf;
    assert Store().PointersOf(child.sessionId, id)[0] == Some(key);
  }

  lemma Stored(parent: Source)
    requires Starts(parent)
    ensures Store().AttemptsOf(ChildOf(parent)) == [AttemptIn(ChildOf(parent))]
    ensures Store().PointersOf(ChildOf(parent).sessionId, AttemptIn(ChildOf(parent))) == [Some(LeaseKeyOf(parent))]
  {
    Texts();
    hide LeaseOf, FieldsOf, BindingOf;
  }

  lemma Present()
    ensures Store().MarkersOf("r") == [MarkerOf(TOP), MarkerOf(CLAIMED)] && Store().MarkersOf("w") == [MarkerOf(WORKER)]
        && Store().MarkersOf("x") == []
    ensures Store().present == {TOP, WORKER, CLAIMED, LOWER} && Store().readable == {"r", "w", "x"}
  {
    Texts();
    hide MarkerOf, LeaseOf, FieldsOf, BindingOf;
  }

  /** Each child's input points at its parent's. */
  lemma Pointed()
    ensures Store().inputs.Keys == {TOP, WORKER, CLAIMED, LOWER}
    ensures Store().inputs[TOP] == Input("a", None, None)
    ensures Store().inputs[WORKER] == Input("b", Some("a"), Some(BindingOf(TOP)))
    ensures Store().inputs[CLAIMED] == Input("d", Some("b"), Some(BindingOf(WORKER)))
    ensures Store().inputs[LOWER] == Input("e", Some("d"), Some(BindingOf(CLAIMED)))
  {
    hide MarkerOf, LeaseOf, FieldsOf, BindingOf;
  }

  lemma OwnedIs(parent: Source, own: set<string>)
    requires Starts(parent)
    ensures Owned(Store(), Roots(), own, parent, MarkerOf(parent), ChildOf(parent))
            == if parent == TOP || AttemptIn(parent) in own then {AttemptIn(ChildOf(parent))} else {}
  {
    Stored(parent);
    Called(parent);
    LeaseProves(parent, own);
    OnlyPointer(parent, own, ChildOf(parent), AttemptIn(ChildOf(parent)), LeaseKeyOf(parent));
    hide AttemptProved, StoreVia, ParentCall, CallParent, Store, MarkerOf, ChildOf, AttemptIn, LeaseKeyOf, CallOf,
    Starts;
  }

  lemma AllReciprocal(parent: Source)
    requires Starts(parent)
    ensures Reciprocal(Store(), parent, MarkerOf(parent), ChildOf(parent))
  {
    Texts();
    Formats();
    Pointed();
    assert Store().metadata[ChildOf(parent).sessionId] == Metadata(true, FieldsOf(parent));
    hide Store, Exact, Digest, Hash;
  }

  lemma LinkIs(parent: Source, own: set<string>)
    requires Starts(parent)
    ensures ValidLink(Store(), Roots(), own, parent, MarkerOf(parent), ChildOf(parent))
            <==> parent == TOP || AttemptIn(parent) in own
  {
    Present();
    AllReciprocal(parent);
    Called(parent);
    OwnedIs(parent, own);
    hide Owned, ParentCall, Reciprocal, Store, Roots, FieldsOf;
  }

  lemma OrphansAre(parent: Source)
    requires Starts(parent)
    ensures Store().OrphansOf(parent) == {ChildOf(parent)}
  {
    Texts();
    Pointed();
    hide Store, BindingOf;
  }

  lemma LastHasNone()
    ensures Store().WellFormed() && Store().OrphansOf(LOWER) == {}
  {
    Texts();
    Pointed();
    Present();
    hide Store, BindingOf;
  }

  lemma CandidatesAre(parent: Source)
    requires Starts(parent)
    ensures Store().Candidates(parent) == {MarkerOf(parent)}
  {
    Texts();
    Present();
    OrphansAre(parent);
    hide Store, Hash;
    forall p | Starts(p) && p.sessionId == parent.sessionId
      ensures Store().Candidate(parent, MarkerOf(p)) <==> p == parent {
    }
    hide Db.Candidate, MarkerOf;
  }

  lemma NoCandidates()
    ensures Store().Candidates(LOWER) == {} && Store().Names(LOWER) == {}
  {
    Present();
    LastHasNone();
    hide Store;
  }

  const ALL := {TOP, WORKER, CLAIMED, LOWER}

  lemma LinksFromAre()
    ensures LinksFrom(Store(), ALL) == {(TOP, MarkerOf(TOP)), (WORKER, MarkerOf(WORKER)), (CLAIMED, MarkerOf(CLAIMED))}
    ensures LinksFrom(Store(), {TOP}) == {(TOP, MarkerOf(TOP))}
  {
    CandidatesAre(TOP);
    CandidatesAre(WORKER);
    CandidatesAre(CLAIMED);
    NoCandidates();
    hide Db.Candidates, MarkerOf, Store;
  }

  lemma NamesAre(parent: Source)
    requires Starts(parent)
    ensures Store().Names(parent) == {ChildOf(parent)}
  {
    CandidatesAre(parent);
    OrphansAre(parent);
    hide Store, Db.Candidates, Db.OrphansOf, FieldsOf;
  }

  lemma AllReached(roots: set<Source>)
    requires TOP in roots && roots <= ALL
    ensures Reached(Store(), roots, ALL)
  {
    Present();
    NamesAre(TOP);
    NamesAre(WORKER);
    NamesAre(CLAIMED);
    NoCandidates();
    hide Store, Db.Names, ChildOf;
    Children();
  }

  lemma Children()
    ensures ChildOf(TOP) == WORKER && ChildOf(WORKER) == CLAIMED && ChildOf(CLAIMED) == LOWER
  {
    Texts();
  }

  function ViewOf(claimedRoots: seq<Source>): View {
    View(Store(), Roots(), claimedRoots, ALL)
  }

  lemma NamingIs(claimedRoots: seq<Source>, parent: Source)
    requires Starts(parent)
    ensures ViewOf(claimedRoots).Naming(ChildOf(parent)) == {(parent, MarkerOf(parent))}
  {
    Texts();
    LinksFromAre();
    Present();
    hide Store, LinksFrom;
  }

  /** Where one link alone names a source, that link decides. */
  lemma OnlyLink(v: View, k: Source, l: Link)
    requires v.Naming(k) == {l} && l.0.seqNo < k.seqNo
    ensures v.Own(k) == Owned(v.db, v.c, v.Visible(l.0), l.0, l.1, k)
    ensures forall p :: v.SoleParent(k, p) <==> p == l.0 && ValidLink(v.db, v.c, v.Visible(l.0), l.0, l.1, k)
  {
    assert l in v.Naming(k);
    hide View.Naming, View.Visible, Owned, ValidLink, Marker.Owner;
  }

  lemma Older(parent: Source)
    requires Starts(parent)
    ensures parent.seqNo < ChildOf(parent).seqNo && ChildOf(parent) !in Roots().RootKeys() && parent in ALL
    ensures parent in Roots().RootKeys() <==> parent == TOP
  {
    Texts();
  }

  /** The child's own attempt is proved, and its parent is its sole one, exactly
      when the parent lends its own attempt or is the root. */
  lemma Decides(claimedRoots: seq<Source>, parent: Source)
    requires Starts(parent)
    ensures var v := ViewOf(claimedRoots);
            var lends := parent == TOP || AttemptIn(parent) in v.Visible(parent);
            && v.Own(ChildOf(parent)) == (if lends then {AttemptIn(ChildOf(parent))} else {})
            && forall p :: v.SoleParent(ChildOf(parent), p) <==> p == parent && lends
  {
    var v := ViewOf(claimedRoots);
    Older(parent);
    NamingIs(claimedRoots, parent);
    OnlyLink(v, ChildOf(parent), (parent, MarkerOf(parent)));
    LinkIs(parent, v.Visible(parent));
    OwnedIs(parent, v.Visible(parent));
    hide *;
    ViewHas(claimedRoots);
  }

  lemma ViewHas(claimedRoots: seq<Source>)
    ensures ViewOf(claimedRoots).db == Store() && ViewOf(claimedRoots).c == Roots()
    ensures ViewOf(claimedRoots).seen == ALL
  {
    hide Store, Roots;
  }

  /** A child survives exactly when its parent is the root, or survives and lends
      its own attempt. */
  lemma ChildSurvives(claimedRoots: seq<Source>, parent: Source)
    requires Starts(parent)
    ensures ViewOf(claimedRoots).Survives(ChildOf(parent))
            <==> parent == TOP || (ViewOf(claimedRoots).Survives(parent)
                                   && AttemptIn(parent) in ViewOf(claimedRoots).Visible(parent))
  {
    var v := ViewOf(claimedRoots);
    Older(parent);
    Decides(claimedRoots, parent);
    ViewHas(claimedRoots);
    hide *;
    SoleSurvives(v, ChildOf(parent), parent, parent == TOP || AttemptIn(parent) in v.Visible(parent));
  }

  /** A source that at most one parent can own survives with that parent. */
  lemma SoleSurvives(v: View, k: Source, parent: Source, lends: bool)
    requires parent in v.seen && parent.seqNo < k.seqNo && k !in v.c.RootKeys()
    requires forall p :: v.SoleParent(k, p) <==> p == parent && lends
    ensures v.Survives(k) <==> lends && (parent in v.c.RootKeys() || v.Survives(parent))
  {
    hide View.SoleParent, Context.RootKeys;
  }

  lemma ReadyIs(claimedRoots: seq<Source>)
    requires claimedRoots in {[TOP], [TOP, CLAIMED]}
    ensures ViewOf(claimedRoots).Ready(WORKER)
    ensures ViewOf(claimedRoots).Ready(CLAIMED) <==> claimedRoots == [TOP]
  {
    Texts();
    LinksFromAre();
    hide LinksFrom, Store;
    assert Before([TOP, CLAIMED], CLAIMED) == {TOP};
    assert !NamesChild(Store(), (TOP, MarkerOf(TOP)), CLAIMED);
    assert |[TOP]| != |[TOP, CLAIMED]|;
  }

  /** What CLAIMED lends: its own attempt, unless it is claimed. */
  lemma Lent(claimedRoots: seq<Source>)
    requires claimedRoots in {[TOP], [TOP, CLAIMED]}
    ensures ViewOf(claimedRoots).Visible(WORKER) == {"m"}
    ensures ViewOf(claimedRoots).Visible(CLAIMED) == if claimedRoots == [TOP] then {"k"} else {}
  {
    Texts();
    Children();
    ReadyIs(claimedRoots);
    Decides(claimedRoots, TOP);
    Decides(claimedRoots, WORKER);
    hide View.Own, View.Ready, ChildOf, Store;
  }

  /** Both claims are ascending, and each is reached alike. Without the claim the
      last worker survives; the claim itself loses it. */
  lemma ClaimLosesWorker()
    ensures Store().WellFormed() && Reached(Store(), {TOP}, ALL) && Reached(Store(), {TOP, CLAIMED}, ALL)
    ensures InOrder([TOP]) && InOrder([TOP, CLAIMED])
    ensures ViewOf([TOP]).Survives(CLAIMED) && ViewOf([TOP, CLAIMED]).Survives(CLAIMED)
    ensures ViewOf([TOP]).Survives(LOWER) && !ViewOf([TOP, CLAIMED]).Survives(LOWER)
  {
    LastHasNone();
    AllReached({TOP});
    AllReached({TOP, CLAIMED});
    Ascending();
    assert |[TOP]| != |[TOP, CLAIMED]|;
    hide *;
    Survivors([TOP]);
    Survivors([TOP, CLAIMED]);
  }

  lemma Ascending()
    ensures InOrder([TOP]) && InOrder([TOP, CLAIMED])
  {
  }

  lemma Survivors(claimedRoots: seq<Source>)
    requires claimedRoots in {[TOP], [TOP, CLAIMED]}
    ensures ViewOf(claimedRoots).Survives(CLAIMED)
    ensures ViewOf(claimedRoots).Survives(LOWER) <==> claimedRoots == [TOP]
  {
    Texts();
    Children();
    Lent(claimedRoots);
    ChildSurvives(claimedRoots, TOP);
    ChildSurvives(claimedRoots, WORKER);
    ChildSurvives(claimedRoots, CLAIMED);
    hide View.Survives, View.Visible, Store, ChildOf;
  }
}
