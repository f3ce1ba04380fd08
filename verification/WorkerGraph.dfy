/** Discovery of delegated workers (scripts/session-comparison.ts,
    readWorkerUsageGraph): a breadth-first traversal of parent markers and
    reciprocal child pointers over arbitrary, possibly cyclic, stores. Claims
    are followed even where the proof is broken; scopes are admitted only with
    their proof, and then pruned. */
module WorkerGraph {
  import opened Identifiers
  import opened LastOwner
  import opened Lineage
  import opened WorkerLinks

  datatype State = State(
    queue: seq<Source>,
    scopes: map<Source, Scope>,
    claimedSources: set<Source>,
    claimedAttempts: set<string>,
    conflicting: set<Source>,
    ownerByChild: map<Source, Fields>)

  // ---------------------------------------------------------------- one marker

  /** What visiting one marker records about the child it names. */
  ghost predicate Recorded(db: Db, c: Context, parent: Source, m: Marker, k: Source, st: State, s: State) {
    var valid := ValidLink(db, c, OwnIn(st.scopes, parent), parent, m, k);
    && s.ownerByChild == st.ownerByChild[k := m.Owner()]
    && s.conflicting == (if !valid || k in c.RootKeys() || (k in st.ownerByChild && st.ownerByChild[k] != m.Owner())
                         then st.conflicting + {k} else st.conflicting)
    && if valid && k !in st.scopes then
         k in s.scopes && s.scopes == st.scopes[k := s.scopes[k]]
         && Admissible(db, c, OwnIn(st.scopes, parent), parent, m, k, s.scopes[k])
       else s.scopes == st.scopes
  }

  ghost predicate Visited(db: Db, c: Context, parent: Source, m: Marker, st: State, s: State) {
    if m.Child().None? || m.Child().value.sessionId !in db.readable then
      s.scopes == st.scopes && s.conflicting == st.conflicting && s.ownerByChild == st.ownerByChild
    else Recorded(db, c, parent, m, m.Child().value, st, s)
  }

  function AttemptClaims(db: Db, m: Marker): set<string> {
    (if m.childAttemptId.Some? then {m.childAttemptId.value} else {})
    + (if m.Child().Some? then set id | id in db.AttemptsOf(m.Child().value) else {})
  }

  /** Compare the owner with the last recorded one, prove the link, and admit the
      child the first time it is proved. */
  method RecordChild(db: Db, c: Context, parent: Source, m: Marker, k: Source, st: State) returns (s: State)
    ensures Recorded(db, c, parent, m, k, st, s)
    ensures s.claimedSources == st.claimedSources && s.claimedAttempts == st.claimedAttempts && s.queue == st.queue
  {
    hide ValidLink, Admissible, OwnIn, Marker.Owner;
    s := st;
    if (k in s.ownerByChild && s.ownerByChild[k] != m.Owner()) || k in c.RootKeys() || k.seqNo <= parent.seqNo {
      s := s.(conflicting := s.conflicting + {k});
    }
    s := s.(ownerByChild := s.ownerByChild[k := m.Owner()]);
    var scope := ProveLink(db, c, s.scopes, parent, m, k);
    if scope.None? {
      s := s.(conflicting := s.conflicting + {k});
    } else {
      ValidLinkNames(db, c, OwnIn(st.scopes, parent), parent, m, k);
      if k !in s.scopes {
        s := s.(scopes := s.scopes[k := scope.value]);
      }
    }
  }

  method VisitMarker(db: Db, c: Context, parent: Source, m: Marker, st: State) returns (s: State)
    ensures s.claimedSources == st.claimedSources + (if m.Child().Some? then {m.Child().value} else {})
    ensures s.claimedAttempts == st.claimedAttempts + AttemptClaims(db, m)
    ensures s.queue == st.queue + Queued(db, m.Child())
    ensures Visited(db, c, parent, m, st, s)
  {
    hide Recorded, AttemptClaims;
    var child := m.Child();
    s := st.(claimedAttempts := st.claimedAttempts + AttemptClaims(db, m), queue := st.queue + Queued(db, child));
    if child.None? {
      return;
    }
    s := s.(claimedSources := s.claimedSources + {child.value});
    if child.value.sessionId in db.readable {
      SameRecords(db, c, parent, m, child.value, st, s);
      s := RecordChild(db, c, parent, m, child.value, s);
    }
  }

  /** A readable child that exists is visited later. */
  function Queued(db: Db, child: Option<Source>): seq<Source> {
    if child.Some? && child.value.sessionId in db.readable && child.value in db.present then [child.value] else []
  }

  /** Claims and queue have no part in what a marker records. */
  lemma SameRecords(db: Db, c: Context, parent: Source, m: Marker, k: Source, a: State, b: State)
    requires a.scopes == b.scopes && a.conflicting == b.conflicting && a.ownerByChild == b.ownerByChild
    ensures forall s :: Recorded(db, c, parent, m, k, a, s) <==> Recorded(db, c, parent, m, k, b, s)
  {
    hide ValidLink, Admissible;
  }

  // ---------------------------------------------------------------- what the links decide

  type Link = (Source, Marker)

  ghost predicate NamesChild(db: Db, l: Link, k: Source) {
    l.1.Child() == Some(k) && k.sessionId in db.readable
  }

  /** The link is proved by the attempts that its parent had when it was visited. */
  ghost predicate ValidAt(db: Db, c: Context, at: map<Source, set<string>>, l: Link, k: Source) {
    l.0 in at && ValidLink(db, c, at[l.0], l.0, l.1, k)
  }

  ghost predicate Named(db: Db, links: set<Link>, k: Source) {
    exists l :: l in links && NamesChild(db, l, k)
  }

  ghost predicate Proved(db: Db, c: Context, at: map<Source, set<string>>, links: set<Link>, k: Source) {
    exists l :: l in links && NamesChild(db, l, k) && ValidAt(db, c, at, l, k)
  }

  ghost predicate Unproved(db: Db, c: Context, at: map<Source, set<string>>, links: set<Link>, k: Source) {
    exists l :: l in links && NamesChild(db, l, k) && !ValidAt(db, c, at, l, k)
  }

  /** Which owners the links give each child. */
  ghost function Claimants(db: Db, links: set<Link>): set<(Source, Fields)> {
    set l | l in links && l.1.Child().Some? && l.1.Child().value.sessionId in db.readable ::
        (l.1.Child().value, l.1.Owner())
  }

  /** The child is a root, some link names it without proof, or two links give it
      different owners. */
  ghost predicate Blamed(db: Db, c: Context, at: map<Source, set<string>>, links: set<Link>, k: Source) {
    || (k in c.RootKeys() && Named(db, links, k))
    || Unproved(db, c, at, links, k)
    || k in ContestedKeys(Claimants(db, links))
  }

  ghost predicate AdmittedBy(db: Db, c: Context, at: map<Source, set<string>>, l: Link, k: Source, scope: Scope) {
    NamesChild(db, l, k) && ValidAt(db, c, at, l, k) && Admissible(db, c, at[l.0], l.0, l.1, k, scope)
  }

  ghost predicate ConflictsExact(db: Db, c: Context, at: map<Source, set<string>>, s: State, links: set<Link>) {
    forall k :: k in s.conflicting <==> Blamed(db, c, at, links, k)
  }

  ghost predicate ScopesExact(db: Db, c: Context, at: map<Source, set<string>>, s: State, links: set<Link>) {
    && (forall k :: k in s.scopes <==> Proved(db, c, at, links, k))
    && (forall k | k in s.scopes :: exists l :: l in links && AdmittedBy(db, c, at, l, k, s.scopes[k]))
  }

  /** Whatever the order of the links: the children in conflict are exactly the
      blamed ones, and the admitted ones exactly those that some link proves. */
  ghost predicate Exactly(db: Db, c: Context, at: map<Source, set<string>>, s: State, links: set<Link>) {
    && Tracks(Claimants(db, links), s.ownerByChild)
    && ConflictsExact(db, c, at, s, links)
    && ScopesExact(db, c, at, s, links)
  }

  ghost predicate SubMap(a: map<Source, Scope>, b: map<Source, Scope>) {
    forall k | k in a :: k in b && b[k] == a[k]
  }

  lemma NamingStep(db: Db, c: Context, at: map<Source, set<string>>, links: set<Link>, l: Link, k: Source)
    ensures Named(db, links + {l}, k) <==> Named(db, links, k) || NamesChild(db, l, k)
    ensures Proved(db, c, at, links + {l}, k)
            <==> Proved(db, c, at, links, k) || (NamesChild(db, l, k) && ValidAt(db, c, at, l, k))
    ensures Unproved(db, c, at, links + {l}, k)
            <==> Unproved(db, c, at, links, k) || (NamesChild(db, l, k) && !ValidAt(db, c, at, l, k))
  {
    hide ValidAt, NamesChild;
    assert l in links + {l} && forall x | x in links :: x in links + {l};
  }

  lemma ClaimantsStep(db: Db, links: set<Link>, l: Link)
    ensures Claimants(db, links + {l})
            == Claimants(db, links) + if l.1.Child().Some? && l.1.Child().value.sessionId in db.readable
                                      then {(l.1.Child().value, l.1.Owner())} else {}
  {
    hide Marker.Child, Marker.Owner;
    assert l in links + {l} && forall x | x in links :: x in links + {l};
  }

  lemma OwnersStep(db: Db, c: Context, st: State, s: State, links: set<Link>, parent: Source, m: Marker)
    requires Tracks(Claimants(db, links), st.ownerByChild) && Visited(db, c, parent, m, st, s)
    ensures Tracks(Claimants(db, links + {(parent, m)}), s.ownerByChild)
  {
    hide ValidLink, Admissible, Tracks, Claimants;
    ClaimantsStep(db, links, (parent, m));
    if m.Child().Some? && m.Child().value.sessionId in db.readable {
      ObserveOwner(Claimants(db, links), st.ownerByChild, m.Child().value, m.Owner());
    } else {
      assert Claimants(db, links) + {} == Claimants(db, links);
    }
  }

  lemma ConflictsStep(db: Db, c: Context, at: map<Source, set<string>>, st: State, s: State, links: set<Link>,
      parent: Source, m: Marker)
    requires Tracks(Claimants(db, links), st.ownerByChild) && ConflictsExact(db, c, at, st, links)
        && Visited(db, c, parent, m, st, s)
    requires parent in at && at[parent] == OwnIn(st.scopes, parent)
    ensures ConflictsExact(db, c, at, s, links + {(parent, m)})
  {
    hide Tracks, Claimants, ContestedKeys, Named, Unproved, ValidLink, Admissible;
    ClaimantsStep(db, links, (parent, m));
    if m.Child().Some? && m.Child().value.sessionId in db.readable {
      ObserveIdentity(Claimants(db, links), st.ownerByChild, m.Child().value, m.Owner());
    } else {
      assert Claimants(db, links) + {} == Claimants(db, links);
    }
    forall k ensures k in s.conflicting <==> Blamed(db, c, at, links + {(parent, m)}, k) {
      NamingStep(db, c, at, links, (parent, m), k);
    }
  }

  lemma VisitedScopes(db: Db, c: Context, at: map<Source, set<string>>, st: State, s: State, parent: Source, m: Marker)
    requires Visited(db, c, parent, m, st, s) && parent in at && at[parent] == OwnIn(st.scopes, parent)
    ensures forall k ::
              k in s.scopes
              <==> k in st.scopes || (NamesChild(db, (parent, m), k) && ValidAt(db, c, at, (parent, m), k))
    ensures forall k | k in st.scopes :: s.scopes[k] == st.scopes[k]
    ensures forall k | k in s.scopes && k !in st.scopes :: AdmittedBy(db, c, at, (parent, m), k, s.scopes[k])
  {
    hide ValidLink, Admissible;
  }

  lemma ScopesStep(db: Db, c: Context, at: map<Source, set<string>>, st: State, s: State, links: set<Link>,
      parent: Source, m: Marker)
    requires ScopesExact(db, c, at, st, links) && Visited(db, c, parent, m, st, s)
    requires parent in at && at[parent] == OwnIn(st.scopes, parent)
    ensures ScopesExact(db, c, at, s, links + {(parent, m)})
  {
    hide Visited, Proved, AdmittedBy, ValidAt, NamesChild;
    VisitedScopes(db, c, at, st, s, parent, m);
    var more := links + {(parent, m)};
    assert (parent, m) in more && forall l | l in links :: l in more;
    forall k ensures k in s.scopes <==> Proved(db, c, at, more, k) {
      NamingStep(db, c, at, links, (parent, m), k);
    }
    forall k | k in s.scopes ensures exists l :: l in more && AdmittedBy(db, c, at, l, k, s.scopes[k]) {
      if k in st.scopes {
        var l :| l in links && AdmittedBy(db, c, at, l, k, st.scopes[k]);
        assert l in more;
      }
    }
  }

  /** One marker keeps the records exact, and leaves the parent's own scope and
      every earlier scope as they were. */
  lemma MarkerKeeps(db: Db, c: Context, at: map<Source, set<string>>, st: State, s: State, links: set<Link>,
      parent: Source, m: Marker)
    requires Exactly(db, c, at, st, links) && Visited(db, c, parent, m, st, s)
    requires parent in at && at[parent] == OwnIn(st.scopes, parent)
    ensures Exactly(db, c, at, s, links + {(parent, m)})
    ensures SubMap(st.scopes, s.scopes) && OwnIn(s.scopes, parent) == OwnIn(st.scopes, parent)
  {
    hide Tracks, Claimants, ConflictsExact, ScopesExact;
    OwnersStep(db, c, st, s, links, parent, m);
    ConflictsStep(db, c, at, st, s, links, parent, m);
    ScopesStep(db, c, at, st, s, links, parent, m);
    if m.Child().Some? && ValidLink(db, c, OwnIn(st.scopes, parent), parent, m, m.Child().value) {
      ValidLinkNames(db, c, OwnIn(st.scopes, parent), parent, m, m.Child().value);
    }
    hide ValidLink, Admissible;
  }

  // ---------------------------------------------------------------- one parent

  ghost function CandidatesUpTo(db: Db, parent: Source, n: nat): set<Marker>
    requires n <= |db.MarkersOf(parent.sessionId)|
  {
    set m | m in db.MarkersOf(parent.sessionId)[..n] && db.Candidate(parent, m)
  }

  ghost function LinksOf(parent: Source, markers: set<Marker>): set<Link> {
    set m | m in markers :: (parent, m)
  }

  ghost function Children(markers: set<Marker>): set<Source> {
    set m | m in markers && m.Child().Some? :: m.Child().value
  }

  ghost function AttemptsNamed(db: Db, markers: set<Marker>): set<string> {
    set m, id | m in markers && id in AttemptClaims(db, m) :: id
  }

  lemma MarkerStep(db: Db, parent: Source, n: nat)
    requires n < |db.MarkersOf(parent.sessionId)|
    ensures var m, before := db.MarkersOf(parent.sessionId)[n], CandidatesUpTo(db, parent, n);
            && CandidatesUpTo(db, parent, n + 1) == (if db.Candidate(parent, m) then before + {m} else before)
            && LinksOf(parent, before + {m}) == LinksOf(parent, before) + {(parent, m)}
            && Children(before + {m}) == Children(before) + (if m.Child().Some? then {m.Child().value} else {})
            && AttemptsNamed(db, before + {m}) == AttemptsNamed(db, before) + AttemptClaims(db, m)
  {
  }

  /** The queue grows by present children only, and by all of them. */
  ghost predicate Enqueued(db: Db, before: seq<Source>, after: seq<Source>, named: set<Source>) {
    && before <= after
    && (forall k | k in named && k in db.present :: k in after)
    && (forall i | |before| <= i < |after| :: after[i] in named && after[i] in db.present)
  }

  method VisitMarkers(db: Db, c: Context, parent: Source, st: State, ghost at: map<Source, set<string>>,
      ghost links: set<Link>)
      returns (s: State)
    requires db.WellFormed() && Exactly(db, c, at, st, links)
    requires parent in at && at[parent] == OwnIn(st.scopes, parent)
    ensures s.claimedSources == st.claimedSources + Children(db.Candidates(parent))
    ensures s.claimedAttempts == st.claimedAttempts + AttemptsNamed(db, db.Candidates(parent))
    ensures Enqueued(db, st.queue, s.queue, Children(db.Candidates(parent)))
    ensures Exactly(db, c, at, s, links + LinksOf(parent, db.Candidates(parent))) && SubMap(st.scopes, s.scopes)
  {
    hide Exactly, Visited, AttemptClaims, CandidatesUpTo, LinksOf, Children, AttemptsNamed, Enqueued, Db.Candidate,
    SubMap, OwnIn;
    s := st;
    var markers := db.MarkersOf(parent.sessionId);
    ghost var now := links;
    NoMarkers(db, parent, st);
    for n := 0 to |markers|
      invariant now == links + LinksOf(parent, CandidatesUpTo(db, parent, n))
      invariant s.claimedSources == st.claimedSources + Children(CandidatesUpTo(db, parent, n))
      invariant s.claimedAttempts == st.claimedAttempts + AttemptsNamed(db, CandidatesUpTo(db, parent, n))
      invariant Enqueued(db, st.queue, s.queue, Children(CandidatesUpTo(db, parent, n)))
      invariant Exactly(db, c, at, s, now) && SubMap(st.scopes, s.scopes) && OwnIn(s.scopes, parent) == at[parent]
    {
      var m := markers[n];
      MarkerStep(db, parent, n);
      if db.Candidate(parent, m) {
        var before := s;
        s := VisitMarker(db, c, parent, m, s);
        MarkerKeeps(db, c, at, before, s, now, parent, m);
        SubMapStep(st.scopes, before.scopes, s.scopes);
        EnqueueOne(db, st.queue, before.queue, s.queue, Children(CandidatesUpTo(db, parent, n)), m.Child());
        now := now + {(parent, m)};
      }
    }
    AllMarkers(db, parent);
  }

  lemma SubMapStep(a: map<Source, Scope>, b: map<Source, Scope>, c: map<Source, Scope>)
    requires SubMap(a, b) && SubMap(b, c)
    ensures SubMap(a, c)
  {
  }

  lemma NoMarkers(db: Db, parent: Source, st: State)
    ensures var none := CandidatesUpTo(db, parent, 0);
            && LinksOf(parent, none) == {} && Children(none) == {} && AttemptsNamed(db, none) == {}
            && Enqueued(db, st.queue, st.queue, {}) && SubMap(st.scopes, st.scopes)
  {
  }

  lemma AllMarkers(db: Db, parent: Source)
    ensures CandidatesUpTo(db, parent, |db.MarkersOf(parent.sessionId)|) == db.Candidates(parent)
  {
  }

  lemma EnqueueOne(db: Db, first: seq<Source>, before: seq<Source>, after: seq<Source>, named: set<Source>,
      child: Option<Source>)
    requires db.WellFormed() && Enqueued(db, first, before, named)
    requires after == before + Queued(db, child)
    ensures Enqueued(db, first, after, named + if child.Some? then {child.value} else {})
  {
  }

  /** Child inputs that point at this parent although no marker names them. */
  ghost function Loose(db: Db, parent: Source): set<Source> {
    db.OrphansOf(parent) - Children(db.Candidates(parent))
  }

  ghost function AttemptsOfAll(db: Db, sources: set<Source>): set<string> {
    set o, id | o in sources && id in db.AttemptsOf(o) :: id
  }

  method VisitOrphans(db: Db, parent: Source, st: State) returns (s: State)
    requires db.WellFormed()
    ensures s.scopes == st.scopes && s.conflicting == st.conflicting && s.ownerByChild == st.ownerByChild
    ensures s.claimedSources == st.claimedSources + Loose(db, parent)
    ensures s.claimedAttempts == st.claimedAttempts + AttemptsOfAll(db, Loose(db, parent))
    ensures Enqueued(db, st.queue, s.queue, Loose(db, parent))
  {
    hide Children, Db.Candidates, Db.Candidate, Enqueued, AttemptsOfAll;
    s := st;
    var markers, todo := db.MarkersOf(parent.sessionId), db.OrphansOf(parent);
    ghost var loose: set<Source> := {};
    NoOrphans(db, st.queue);
    while todo != {}
      invariant todo <= db.OrphansOf(parent) && loose == Loose(db, parent) - todo
      invariant s.scopes == st.scopes && s.conflicting == st.conflicting && s.ownerByChild == st.ownerByChild
      invariant s.claimedSources == st.claimedSources + loose
      invariant s.claimedAttempts == st.claimedAttempts + AttemptsOfAll(db, loose)
      invariant Enqueued(db, st.queue, s.queue, loose)
    {
      var o :| o in todo;
      LinkedMeans(db, parent, o);
      if !exists m :: m in markers && m.Child() == Some(o) && db.Candidate(parent, m) {
        OrphanStep(db, st.queue, s.queue, loose, o);
        s := s.(claimedSources := s.claimedSources + {o},
                claimedAttempts := s.claimedAttempts + (set id | id in db.AttemptsOf(o)),
                queue := s.queue + [o]);
        loose := loose + {o};
      }
      todo := todo - {o};
    }
    assert loose == Loose(db, parent);
  }

  lemma NoOrphans(db: Db, queue: seq<Source>)
    ensures Enqueued(db, queue, queue, {}) && AttemptsOfAll(db, {}) == {}
  {
  }

  lemma OrphanStep(db: Db, first: seq<Source>, before: seq<Source>, loose: set<Source>, o: Source)
    requires Enqueued(db, first, before, loose) && o in db.present
    ensures Enqueued(db, first, before + [o], loose + {o})
    ensures AttemptsOfAll(db, loose + {o}) == AttemptsOfAll(db, loose) + set id | id in db.AttemptsOf(o)
  {
  }

  lemma LinkedMeans(db: Db, parent: Source, o: Source)
    ensures o in Children(db.Candidates(parent))
            <==> exists m :: m in db.MarkersOf(parent.sessionId) && m.Child() == Some(o) && db.Candidate(parent, m)
  {
  }

  /** The attempts that visiting a parent claims: those of every child it names,
      and those its markers name themselves. */
  ghost function AttemptNames(db: Db, parent: Source): set<string> {
    (set o, id | o in db.Names(parent) && id in db.AttemptsOf(o) :: id)
    + (set m | m in db.Candidates(parent) && m.childAttemptId.Some? :: m.childAttemptId.value)
  }

  method VisitParent(db: Db, c: Context, parent: Source, st: State, ghost at: map<Source, set<string>>,
      ghost links: set<Link>)
      returns (s: State)
    requires db.WellFormed() && Exactly(db, c, at, st, links)
    requires parent in at && at[parent] == OwnIn(st.scopes, parent)
    ensures s.claimedSources == st.claimedSources + db.Names(parent)
    ensures s.claimedAttempts == st.claimedAttempts + AttemptNames(db, parent)
    ensures Enqueued(db, st.queue, s.queue, db.Names(parent))
    ensures Exactly(db, c, at, s, links + LinksOf(parent, db.Candidates(parent))) && SubMap(st.scopes, s.scopes)
  {
    hide *;
    var o := VisitOrphans(db, parent, st);
    ExactlySame(db, c, at, st, o, links);
    s := VisitMarkers(db, c, parent, o, at, links);
    NamesSplit(db, parent);
    EnqueuedBoth(db, st.queue, o.queue, s.queue, Loose(db, parent), Children(db.Candidates(parent)));
  }

  lemma ExactlySame(db: Db, c: Context, at: map<Source, set<string>>, st: State, s: State, links: set<Link>)
    requires Exactly(db, c, at, st, links)
    requires s.scopes == st.scopes && s.conflicting == st.conflicting && s.ownerByChild == st.ownerByChild
    ensures Exactly(db, c, at, s, links)
  {
    hide Blamed, Proved, AdmittedBy, Tracks;
  }

  lemma NamesSplit(db: Db, parent: Source)
    ensures db.Names(parent) == Loose(db, parent) + Children(db.Candidates(parent))
    ensures AttemptNames(db, parent) == AttemptsOfAll(db, Loose(db, parent)) + AttemptsNamed(db, db.Candidates(parent))
  {
    hide Db.Candidates, Db.OrphansOf;
    assert db.Names(parent) == Loose(db, parent) + Children(db.Candidates(parent));
    var split := AttemptsOfAll(db, Loose(db, parent)) + AttemptsNamed(db, db.Candidates(parent));
    forall id | id in AttemptNames(db, parent) ensures id in split {
      if o :| o in db.Names(parent) && id in db.AttemptsOf(o) {
        if o in Children(db.Candidates(parent)) {
          var m :| m in db.Candidates(parent) && m.Child().Some? && m.Child().value == o;
          assert id in AttemptClaims(db, m);
        }
      } else {
        var m :| m in db.Candidates(parent) && m.childAttemptId.Some? && m.childAttemptId.value == id;
        assert id in AttemptClaims(db, m);
      }
    }
    forall id | id in split ensures id in AttemptNames(db, parent) {
      if m :| m in db.Candidates(parent) && id in AttemptClaims(db, m) {
        assert m.Child().Some? ==> m.Child().value in Children(db.Candidates(parent));
      }
    }
  }

  lemma EnqueuedBoth(db: Db, a: seq<Source>, b: seq<Source>, c: seq<Source>, x: set<Source>, y: set<Source>)
    requires Enqueued(db, a, b, x) && Enqueued(db, b, c, y)
    ensures Enqueued(db, a, c, x + y)
  {
  }

  // ---------------------------------------------------------------- the traversal

  ghost predicate ClosedUnder(db: Db, s: set<Source>) {
    forall p, k | p in s && k in db.Names(p) && k in db.present :: k in s
  }

  /** All sources that the traversal could ever enqueue. */
  function Universe(db: Db, roots: set<Source>): set<Source> {
    roots
    + db.inputs.Keys
    + (set session, m | session in db.markers && m in db.markers[session] && m.Child().Some? :: m.Child().value)
  }

  ghost function NamesOf(db: Db, seen: set<Source>): set<Source> {
    set p, k | p in seen && k in db.Names(p) :: k
  }

  ghost function AttemptNamesOf(db: Db, seen: set<Source>): set<string> {
    set p, id | p in seen && id in AttemptNames(db, p) :: id
  }

  ghost function LinksFrom(db: Db, seen: set<Source>): set<Link> {
    set p, m | p in seen && m in db.Candidates(p) :: (p, m)
  }

  /** Progress of the breadth-first walk: entries before `index` are done, and
      everything enqueued is reachable. */
  ghost predicate Walked(db: Db, roots: set<Source>, queue: seq<Source>, index: nat, seen: set<Source>) {
    && index <= |queue|
    && (forall r | r in roots :: r in queue)
    && (forall i | 0 <= i < index :: queue[i] in seen)
    && (forall k | k in seen :: k in queue)
    && (forall k | k in queue :: k in Universe(db, roots))
    && (forall p, k | p in seen && k in db.Names(p) && k in db.present :: k in queue)
    && (forall s | roots <= s && ClosedUnder(db, s) :: forall k | k in queue :: k in s)
  }

  lemma WalkStep(db: Db, roots: set<Source>, queue: seq<Source>, index: nat, seen: set<Source>, after: seq<Source>)
    requires Walked(db, roots, queue, index, seen) && index < |queue|
    requires Enqueued(db, queue, after, db.Names(queue[index]))
    ensures Walked(db, roots, after, index + 1, seen + {queue[index]})
  {
    hide Enqueued, Db.Names, Universe;
    EnqueuedMembers(db, queue, after, db.Names(queue[index]));
    NamesInUniverse(db, roots, queue[index]);
  }

  lemma EnqueuedMembers(db: Db, before: seq<Source>, after: seq<Source>, named: set<Source>)
    requires Enqueued(db, before, after, named)
    ensures |before| <= |after| && forall i | 0 <= i < |before| :: after[i] == before[i]
    ensures forall k :: k in after <==> k in before || (k in named && k in db.present)
  {
  }

  lemma NamesInUniverse(db: Db, roots: set<Source>, p: Source)
    ensures db.Names(p) <= Universe(db, roots)
  {
  }

  lemma SeenStep(db: Db, seen: set<Source>, p: Source)
    ensures NamesOf(db, seen + {p}) == NamesOf(db, seen) + db.Names(p)
    ensures AttemptNamesOf(db, seen + {p}) == AttemptNamesOf(db, seen) + AttemptNames(db, p)
    ensures LinksFrom(db, seen + {p}) == LinksFrom(db, seen) + LinksOf(p, db.Candidates(p))
  {
    hide AttemptNames;
  }

  /** The sources reached from the claimed roots: the least closed set. */
  ghost predicate Reached(db: Db, roots: set<Source>, seen: set<Source>) {
    && roots <= seen && ClosedUnder(db, seen)
    && forall s | roots <= s && ClosedUnder(db, s) :: seen <= s
  }

  lemma WalkDone(db: Db, roots: set<Source>, queue: seq<Source>, seen: set<Source>)
    requires Walked(db, roots, queue, |queue|, seen)
    ensures Reached(db, roots, seen)
  {
  }

  lemma WalkStart(db: Db, roots: seq<Source>)
    ensures Walked(db, (set r | r in roots), roots, 0, {})
    ensures NamesOf(db, {}) == {} && AttemptNamesOf(db, {}) == {} && LinksFrom(db, {}) == {}
  {
  }

  lemma WalkSkip(db: Db, roots: set<Source>, queue: seq<Source>, index: nat, seen: set<Source>)
    requires Walked(db, roots, queue, index, seen) && index < |queue| && queue[index] in seen
    ensures Walked(db, roots, queue, index + 1, seen)
  {
  }

  lemma WalkBounded(db: Db, roots: set<Source>, queue: seq<Source>, index: nat, seen: set<Source>)
    requires Walked(db, roots, queue, index, seen)
    ensures index <= |queue|
    ensures index < |queue| ==> queue[index] in Universe(db, roots)
  {
  }

  /** The claimed roots that the traversal visits before `q`. */
  function Before(claimedRoots: seq<Source>, q: Source): set<Source> {
    if claimedRoots == [] || claimedRoots[0] == q then {} else {claimedRoots[0]} + Before(claimedRoots[1..], q)
  }

  lemma {:induction false} BeforeIsPrefix(claimedRoots: seq<Source>, n: nat)
    requires n < |claimedRoots| && claimedRoots[n] !in claimedRoots[..n]
    ensures Before(claimedRoots, claimedRoots[n]) == set r | r in claimedRoots[..n]
  {
    if n > 0 {
      var rest := claimedRoots[1..];
      assert rest[..n - 1] == claimedRoots[1..n] && claimedRoots[..n] == [claimedRoots[0]] + claimedRoots[1..n];
      assert claimedRoots[0] in claimedRoots[..n];
      BeforeIsPrefix(rest, n - 1);
    }
  }

  /** A visited parent whose child input points at it without any marker. */
  ghost predicate Stray(db: Db, seen: set<Source>, q: Source) {
    exists p :: p in seen && q in Loose(db, p)
  }

  /** What a source could lend its children when it was visited: its own scope's
      attempts, unless its scope came later or will not survive. */
  ghost predicate LentRight(db: Db, c: Context, claimedRoots: seq<Source>, at: map<Source, set<string>>,
      scopes: map<Source, Scope>,
                            links: set<Link>, seen: set<Source>, q: Source) {
    && q in at
    && if q in claimedRoots then
         && Before(claimedRoots, q) <= seen
         && at[q] == (if Proved(db, c, at, LinksFrom(db, Before(claimedRoots, q)), q) then OwnIn(scopes, q) else {})
       else
         || (q in scopes && at[q] == scopes[q].attempts)
         || Unproved(db, c, at, links, q) || Stray(db, seen, q)
  }

  /** More visits add attempts and links, and change none of the old ones. */
  ghost predicate Extends(at: map<Source, set<string>>, more: map<Source, set<string>>) {
    forall p | p in at :: p in more && more[p] == at[p]
  }

  lemma ExtendKeeps(db: Db, c: Context, at: map<Source, set<string>>, more: map<Source, set<string>>, links: set<Link>,
      k: Source)
    requires Extends(at, more) && forall l | l in links :: l.0 in at
    ensures Proved(db, c, more, links, k) <==> Proved(db, c, at, links, k)
    ensures Unproved(db, c, more, links, k) <==> Unproved(db, c, at, links, k)
    ensures forall l, scope | l in links :: AdmittedBy(db, c, more, l, k, scope) <==> AdmittedBy(db, c, at, l, k, scope)
  {
    hide ValidLink, Admissible, NamesChild;
  }

  lemma ConflictsExtend(db: Db, c: Context, at: map<Source, set<string>>, more: map<Source, set<string>>, s: State,
      links: set<Link>)
    requires ConflictsExact(db, c, at, s, links) && Extends(at, more) && forall l | l in links :: l.0 in at
    ensures ConflictsExact(db, c, more, s, links)
  {
    hide Proved, Unproved, Named, AdmittedBy, Claimants, ContestedKeys, Extends;
    forall k ensures k in s.conflicting <==> Blamed(db, c, more, links, k) {
      ExtendKeeps(db, c, at, more, links, k);
    }
  }

  lemma ScopesExtend(db: Db, c: Context, at: map<Source, set<string>>, more: map<Source, set<string>>, s: State,
      links: set<Link>)
    requires ScopesExact(db, c, at, s, links) && Extends(at, more) && forall l | l in links :: l.0 in at
    ensures ScopesExact(db, c, more, s, links)
  {
    hide Proved, Unproved, AdmittedBy, Extends;
    forall k ensures k in s.scopes <==> Proved(db, c, more, links, k) {
      ExtendKeeps(db, c, at, more, links, k);
    }
    forall k | k in s.scopes ensures exists l :: l in links && AdmittedBy(db, c, more, l, k, s.scopes[k]) {
      ExtendKeeps(db, c, at, more, links, k);
      var l :| l in links && AdmittedBy(db, c, at, l, k, s.scopes[k]);
    }
  }

  lemma ExactlyExtends(db: Db, c: Context, at: map<Source, set<string>>, more: map<Source, set<string>>, s: State,
      links: set<Link>)
    requires Exactly(db, c, at, s, links) && Extends(at, more) && forall l | l in links :: l.0 in at
    ensures Exactly(db, c, more, s, links)
  {
    hide ConflictsExact, ScopesExact, Tracks;
    ConflictsExtend(db, c, at, more, s, links);
    ScopesExtend(db, c, at, more, s, links);
  }

  lemma LinksHaveParents(db: Db, seen: set<Source>)
    ensures forall l | l in LinksFrom(db, seen) :: l.0 in seen
  {
  }

  lemma MoreUnproved(db: Db, c: Context, at: map<Source, set<string>>, links: set<Link>, more: set<Link>, k: Source)
    requires Unproved(db, c, at, links, k) && links <= more
    ensures Unproved(db, c, at, more, k)
  {
  }

  lemma LentKeeps(db: Db, c: Context, claimedRoots: seq<Source>, at: map<Source, set<string>>,
      after: map<Source, set<string>>,
                  scopes: map<Source, Scope>, later: map<Source, Scope>, seen: set<Source>, more: set<Source>,
                  q: Source)
    requires LentRight(db, c, claimedRoots, at, scopes, LinksFrom(db, seen), seen, q)
    requires seen <= at.Keys && Extends(at, after) && SubMap(scopes, later) && seen <= more
    requires q in scopes || !Proved(db, c, at, LinksFrom(db, seen), q)
    ensures LentRight(db, c, claimedRoots, after, later, LinksFrom(db, more), more, q)
  {
    var links, early := LinksFrom(db, seen), LinksFrom(db, Before(claimedRoots, q));
    LinksHaveParents(db, seen);
    LinksHaveParents(db, Before(claimedRoots, q));
    ExtendKeeps(db, c, at, after, links, q);
    if q in claimedRoots {
      ExtendKeeps(db, c, at, after, early, q);
      EarlyProved(db, c, at, early, links, q, Before(claimedRoots, q), seen);
    } else if Unproved(db, c, at, links, q) {
      LinksGrow(db, seen, more);
      MoreUnproved(db, c, after, links, LinksFrom(db, more), q);
    }
    hide Proved, Unproved, LinksFrom, Loose;
  }

  lemma LinksGrow(db: Db, seen: set<Source>, more: set<Source>)
    requires seen <= more
    ensures LinksFrom(db, seen) <= LinksFrom(db, more)
  {
  }

  lemma EarlyProved(db: Db, c: Context, at: map<Source, set<string>>, early: set<Link>, links: set<Link>, q: Source,
      before: set<Source>, seen: set<Source>)
    requires early == LinksFrom(db, before) && links == LinksFrom(db, seen) && before <= seen
    ensures Proved(db, c, at, early, q) ==> Proved(db, c, at, links, q)
  {
    LinksGrow(db, before, seen);
    hide LinksFrom, ValidAt, NamesChild;
  }

  /** An enqueued source is a claimed root or was named by a visited parent. */
  ghost predicate Arrived(db: Db, seen: set<Source>, q: Source) {
    q in db.present && exists p :: p in seen && q in db.Names(p)
  }

  ghost predicate AllArrived(db: Db, seen: set<Source>, queue: seq<Source>, n: nat) {
    forall i | n <= i < |queue| :: Arrived(db, seen, queue[i])
  }

  ghost predicate AllLendRight(db: Db, c: Context, claimedRoots: seq<Source>, at: map<Source, set<string>>,
      scopes: map<Source, Scope>,
                               seen: set<Source>) {
    forall q | q in seen :: LentRight(db, c, claimedRoots, at, scopes, LinksFrom(db, seen), seen, q)
  }

  ghost predicate RootsFirst(claimedRoots: seq<Source>, index: nat, seen: set<Source>) {
    index <= |claimedRoots| ==> seen == set r | r in claimedRoots[..index]
  }

  /** What the traversal knows before it visits `queue[index]`. */
  ghost predicate Following(db: Db, c: Context, claimedRoots: seq<Source>, s: State, index: nat, seen: set<Source>,
      at: map<Source, set<string>>) {
    && Walked(db, (set r | r in claimedRoots), s.queue, index, seen)
    && Exactly(db, c, at, s, LinksFrom(db, seen)) && at.Keys == seen
    && claimedRoots <= s.queue && RootsFirst(claimedRoots, index, seen)
    && AllArrived(db, seen, s.queue, |claimedRoots|)
    && AllLendRight(db, c, claimedRoots, at, s.scopes, seen)
  }

  /** A claimed root is visited right after the claimed roots before it. */
  lemma ClaimedInTime(db: Db, c: Context, claimedRoots: seq<Source>, s: State, index: nat, seen: set<Source>,
      at: map<Source, set<string>>)
    requires Following(db, c, claimedRoots, s, index, seen, at)
    requires index < |s.queue| && s.queue[index] !in seen && s.queue[index] in claimedRoots
    ensures Before(claimedRoots, s.queue[index]) == seen
  {
    hide Exactly, LentRight, Arrived, Universe, ClosedUnder, Db.Names;
    assert forall i | 0 <= i < |claimedRoots| :: s.queue[i] == claimedRoots[i];
    if index < |claimedRoots| {
      BeforeIsPrefix(claimedRoots, index);
    }
  }

  /** Any other source was named before its visit: by a link that failed, unless
      it has its scope already or no marker names it. */
  lemma ArrivedUnproved(db: Db, c: Context, claimedRoots: seq<Source>, s: State, index: nat, seen: set<Source>,
      at: map<Source, set<string>>)
    requires db.WellFormed() && Following(db, c, claimedRoots, s, index, seen, at)
    requires index < |s.queue| && s.queue[index] !in claimedRoots && s.queue[index] !in s.scopes
        && !Stray(db, seen, s.queue[index])
    ensures Unproved(db, c, at, LinksFrom(db, seen), s.queue[index])
  {
    hide Tracks, ConflictsExact, LentRight, Walked, ValidAt, Loose, Db.Candidates;
    var q := s.queue[index];
    assert forall i | 0 <= i < |claimedRoots| :: s.queue[i] == claimedRoots[i];
    assert index >= |claimedRoots|;
    assert Arrived(db, seen, q);
    var p :| p in seen && q in db.Names(p);
    NamesSplit(db, p);
    var m :| m in db.Candidates(p) && m.Child().Some? && m.Child().value == q;
    assert (p, m) in LinksFrom(db, seen) && NamesChild(db, (p, m), q);
  }

  lemma FollowingScopes(db: Db, c: Context, claimedRoots: seq<Source>, s: State, index: nat, seen: set<Source>,
      at: map<Source, set<string>>, q: Source)
    requires Following(db, c, claimedRoots, s, index, seen, at)
    ensures at.Keys == seen && (q in s.scopes <==> Proved(db, c, at, LinksFrom(db, seen), q))
  {
    hide Tracks, ConflictsExact, LentRight, Walked, Proved, LinksFrom, Arrived, AdmittedBy;
  }

  /** A source lends right when it is visited for the first time. */
  lemma LendsRight(db: Db, c: Context, claimedRoots: seq<Source>, s: State, index: nat, seen: set<Source>,
      at: map<Source, set<string>>)
    requires db.WellFormed() && Following(db, c, claimedRoots, s, index, seen, at)
    requires index < |s.queue| && s.queue[index] !in seen
    ensures var q := s.queue[index];
            && LentRight(db, c, claimedRoots, at[q := OwnIn(s.scopes, q)], s.scopes, LinksFrom(db, seen), seen, q)
            && (q in s.scopes || !Proved(db, c, at[q := OwnIn(s.scopes, q)], LinksFrom(db, seen), q))
  {
    hide Following, Proved, Unproved, LinksFrom, Stray, Db.WellFormed;
    var q := s.queue[index];
    FollowingScopes(db, c, claimedRoots, s, index, seen, at, q);
    LinksHaveParents(db, seen);
    ExtendKeeps(db, c, at, at[q := OwnIn(s.scopes, q)], LinksFrom(db, seen), q);
    if q in claimedRoots {
      ClaimedInTime(db, c, claimedRoots, s, index, seen, at);
    } else if q !in s.scopes && !Stray(db, seen, q) {
      ArrivedUnproved(db, c, claimedRoots, s, index, seen, at);
    }
  }

  lemma ArrivedStep(db: Db, seen: set<Source>, queue: seq<Source>, after: seq<Source>, n: nat, q: Source)
    requires AllArrived(db, seen, queue, n) && n <= |queue| && Enqueued(db, queue, after, db.Names(q))
    ensures AllArrived(db, seen + {q}, after, n)
  {
    hide Db.Names;
    forall i | n <= i < |after| ensures Arrived(db, seen + {q}, after[i]) {
      if i < |queue| {
        assert after[i] == queue[i] && Arrived(db, seen, queue[i]);
      }
    }
  }

  lemma LendStep(db: Db, c: Context, claimedRoots: seq<Source>, st: State, s: State, index: nat, seen: set<Source>,
      at: map<Source, set<string>>)
    requires db.WellFormed() && Following(db, c, claimedRoots, st, index, seen, at) && SubMap(st.scopes, s.scopes)
    requires index < |st.queue| && st.queue[index] !in seen
    ensures var q := st.queue[index];
            AllLendRight(db, c, claimedRoots, at[q := OwnIn(st.scopes, q)], s.scopes, seen + {q})
  {
    hide Exactly, LentRight, Walked, Proved, LinksFrom, Arrived, Db.WellFormed;
    var q := st.queue[index];
    var more := at[q := OwnIn(st.scopes, q)];
    LendsRight(db, c, claimedRoots, st, index, seen, at);
    forall k | k in seen + {q}
      ensures LentRight(db, c, claimedRoots, more, s.scopes, LinksFrom(db, seen + {q}), seen + {q}, k) {
      FollowingScopes(db, c, claimedRoots, st, index, seen, at, k);
      if k in seen {
        LentKeeps(db, c, claimedRoots, at, more, st.scopes, s.scopes, seen, seen + {q}, k);
      } else {
        LentKeeps(db, c, claimedRoots, more, more, st.scopes, s.scopes, seen, seen + {q}, q);
      }
    }
  }

  lemma RootsStep(claimedRoots: seq<Source>, queue: seq<Source>, index: nat, seen: set<Source>)
    requires claimedRoots <= queue && RootsFirst(claimedRoots, index, seen) && index < |queue|
    ensures RootsFirst(claimedRoots, index + 1, seen + {queue[index]})
  {
    if index < |claimedRoots| {
      assert claimedRoots[..index + 1] == claimedRoots[..index] + [queue[index]];
    }
  }

  lemma FollowStart(db: Db, c: Context, claimedRoots: seq<Source>)
    ensures Following(db, c, claimedRoots, State(claimedRoots, map[], {}, {}, {}, map[]), 0, {}, map[])
    ensures NamesOf(db, {}) == {} && AttemptNamesOf(db, {}) == {}
  {
    WalkStart(db, claimedRoots);
    hide Walked, LinksFrom, NamesOf, AttemptNamesOf;
  }

  lemma FollowSkip(db: Db, c: Context, claimedRoots: seq<Source>, s: State, index: nat, seen: set<Source>,
      at: map<Source, set<string>>)
    requires Following(db, c, claimedRoots, s, index, seen, at) && index < |s.queue| && s.queue[index] in seen
    ensures Following(db, c, claimedRoots, s, index + 1, seen, at)
  {
    hide Walked, Exactly, AllArrived, AllLendRight, RootsFirst;
    WalkSkip(db, (set r | r in claimedRoots), s.queue, index, seen);
    RootsStep(claimedRoots, s.queue, index, seen);
    assert seen + {s.queue[index]} == seen;
  }

  lemma FollowVisit(db: Db, c: Context, claimedRoots: seq<Source>, s: State, index: nat, seen: set<Source>,
      at: map<Source, set<string>>)
    requires Following(db, c, claimedRoots, s, index, seen, at) && index < |s.queue| && s.queue[index] !in seen
    ensures var q := s.queue[index];
            Exactly(db, c, at[q := OwnIn(s.scopes, q)], s, LinksFrom(db, seen))
  {
    hide Walked, Exactly, AllArrived, AllLendRight, RootsFirst;
    LinksHaveParents(db, seen);
    ExactlyExtends(db, c, at, at[s.queue[index] := OwnIn(s.scopes, s.queue[index])], s, LinksFrom(db, seen));
  }

  lemma FollowStep(db: Db, c: Context, claimedRoots: seq<Source>, st: State, s: State, index: nat, seen: set<Source>,
      at: map<Source, set<string>>,
                   more: map<Source, set<string>>)
    requires db.WellFormed() && Following(db, c, claimedRoots, st, index, seen, at)
    requires index < |st.queue| && st.queue[index] !in seen
        && more == at[st.queue[index] := OwnIn(st.scopes, st.queue[index])]
    requires SubMap(st.scopes, s.scopes) && Enqueued(db, st.queue, s.queue, db.Names(st.queue[index]))
    requires Exactly(db, c, more, s, LinksFrom(db, seen) + LinksOf(st.queue[index], db.Candidates(st.queue[index])))
    ensures Following(db, c, claimedRoots, s, index + 1, seen + {st.queue[index]}, more)
  {
    hide Walked, Exactly, AllArrived, AllLendRight, RootsFirst, Enqueued, SubMap, LinksFrom, LinksOf,
      Db.WellFormed, Db.Names, Db.Candidates;
    WalkStep(db, (set r | r in claimedRoots), st.queue, index, seen, s.queue);
    SeenStep(db, seen, st.queue[index]);
    RootsStep(claimedRoots, st.queue, index, seen);
    ArrivedStep(db, seen, st.queue, s.queue, |claimedRoots|, st.queue[index]);
    LendStep(db, c, claimedRoots, st, s, index, seen, at);
    QueuePrefix(db, st.queue, s.queue, db.Names(st.queue[index]));
  }

  lemma QueuePrefix(db: Db, before: seq<Source>, after: seq<Source>, named: set<Source>)
    requires Enqueued(db, before, after, named)
    ensures before <= after
  {
  }

  /** The traversal halts, has claimed everything it can reach, and has recorded
      scopes and conflicts exactly. */
  method Traverse(db: Db, c: Context, claimedRoots: seq<Source>)
      returns (s: State, ghost seen: set<Source>, ghost at: map<Source, set<string>>)
    requires db.WellFormed()
    ensures Reached(db, (set r | r in claimedRoots), seen)
    ensures s.claimedSources == NamesOf(db, seen)
    ensures s.claimedAttempts == AttemptNamesOf(db, seen)
    ensures at.Keys == seen && Exactly(db, c, at, s, LinksFrom(db, seen))
    ensures AllLendRight(db, c, claimedRoots, at, s.scopes, seen)
  {
    s := State(claimedRoots, map[], {}, {}, {}, map[]);
    seen, at := {}, map[];
    var index, visited := 0, {};
    FollowStart(db, c, claimedRoots);
    hide *;
    ghost var roots := set r | r in claimedRoots;
    while index < |s.queue|
      invariant index <= |s.queue| && seen == visited
      invariant Following(db, c, claimedRoots, s, index, seen, at)
      invariant s.claimedSources == NamesOf(db, seen)
      invariant s.claimedAttempts == AttemptNamesOf(db, seen)
      decreases Universe(db, roots) - seen, |s.queue| - index
    {
      var parent := s.queue[index];
      FollowWalks(db, c, claimedRoots, s, index, seen, at);
      WalkBounded(db, roots, s.queue, index, seen);
      if parent in visited {
        FollowSkip(db, c, claimedRoots, s, index, seen, at);
      } else {
        ghost var before, more := s, at[parent := OwnIn(s.scopes, parent)];
        FollowVisit(db, c, claimedRoots, s, index, seen, at);
        s := VisitParent(db, c, parent, s, more, LinksFrom(db, seen));
        FollowStep(db, c, claimedRoots, before, s, index, seen, at, more);
        SeenStep(db, seen, parent);
        QueuePrefix(db, before.queue, s.queue, db.Names(parent));
        visited, seen, at := visited + {parent}, seen + {parent}, more;
      }
      index := index + 1;
    }
    FollowWalks(db, c, claimedRoots, s, index, seen, at);
    WalkDone(db, roots, s.queue, seen);
  }

  lemma FollowWalks(db: Db, c: Context, claimedRoots: seq<Source>, s: State, index: nat, seen: set<Source>,
      at: map<Source, set<string>>)
    requires Following(db, c, claimedRoots, s, index, seen, at)
    ensures Walked(db, (set r | r in claimedRoots), s.queue, index, seen)
    ensures at.Keys == seen && Exactly(db, c, at, s, LinksFrom(db, seen))
        && AllLendRight(db, c, claimedRoots, at, s.scopes, seen)
  {
  }
}
