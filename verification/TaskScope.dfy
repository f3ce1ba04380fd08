/** The scope of one task (scripts/session-comparison.ts, measureAcceptedTask
    before the row loop): its public members, workflow sources and delegated
    workers are joined into the maps by which usage rows are attributed. */
module TaskScope {
  import opened ApprovalClosure
  import opened Chains
  import opened Identifiers
  import opened LastOwner
  import opened Lineage
  import opened TaskRows
  import opened Usage
  import W = WorkerLineage

  /** A proved workflow source: its parent, if it has one, and its attempts. */
  datatype WorkflowScope = WorkflowScope(parent: Option<Source>, attempts: set<string>)

  /** The public part: members, their parents and their attempts. */
  datatype Public = Public(sessionId: string, members: set<nat>, parents: map<nat, nat>,
      attempts: map<nat, set<string>>)
  {
    function Keys(): set<Source> {
      set n | n in members :: Source(sessionId, n)
    }

    /** An attempt row names one source. */
    ghost predicate OneSource() {
      forall m, n, id | m in members && n in members && id in AttemptsOf(m) && id in AttemptsOf(n) :: m == n
    }

    function AttemptsOf(n: nat): set<string> {
      if n in attempts then attempts[n] else {}
    }
  }

  /** What other readers claim besides the joined scopes. */
  datatype OtherClaims = OtherClaims(sources: set<string>, attempts: set<string>, workflowRuns: set<string>,
      windows: seq<Intervals.Interval>)

  function Text(s: Source): string {
    SourceKey(s.sessionId, s.seqNo)
  }

  lemma TextInjective(a: Source, b: Source)
    ensures Text(a) == Text(b) <==> a == b
  {
    if Text(a) == Text(b) {
      SourceKeyInjective(a.sessionId, a.seqNo, b.sessionId, b.seqNo);
    }
  }

  // ---------------------------------------------------------------- what the joined maps say

  /** The three kinds of sources, which share no key. */
  datatype Joined = Joined(public: Public, workflow: map<Source, WorkflowScope>, workers: map<Source, Scope>)
  {
    ghost predicate Disjoint() {
      && public.Keys() !! workflow.Keys && public.Keys() !! workers.Keys && workflow.Keys !! workers.Keys
      && public.parents.Keys <= public.members
    }

    /** The sources that have a parent. */
    function Children(): set<Source> {
      set s | s in Sources() && ParentOf(s).Some?
    }

    /** `s` has the attempt, and no other source has it, unless both are public. */
    ghost predicate SoleOwner(id: string, s: Source) {
      id in AttemptsOf(s) && forall o | o in Sources() && id in AttemptsOf(o) && o != s ::
                               o in public.Keys() && s in public.Keys()
    }

    function Sources(): set<Source> {
      public.Keys() + workflow.Keys + workers.Keys
    }

    function ParentOf(s: Source): Option<Source> {
      if s in workers then Some(workers[s].participant.ParentKey())
      else if s in workflow then workflow[s].parent
      else if s in public.Keys() && s.seqNo in public.parents
      then Some(Source(public.sessionId, public.parents[s.seqNo]))
      else None
    }

    function AttemptsOf(s: Source): set<string> {
      if s in workers then workers[s].attempts
      else if s in workflow then workflow[s].attempts
      else if s in public.Keys() then public.AttemptsOf(s.seqNo)
      else {}
    }
  }

  /** `m` holds `value(s)` under the text of every source of `all`, and nothing else. */
  ghost predicate Indexed<V>(all: set<Source>, m: map<string, V>, value: Source -> V) {
    && (forall s | s in all :: Text(s) in m && m[Text(s)] == value(s))
    && (forall k | k in m :: exists s :: s in all && Text(s) == k)
  }

  lemma IndexedNext<V>(all: set<Source>, m: map<string, V>, value: Source -> V, s: Source)
    requires Indexed(all, m, value)
    ensures Indexed(all + {s}, m[Text(s) := value(s)], value)
  {
    forall a | a in all {
      TextInjective(a, s);
    }
    hide Text;
  }

  // ---------------------------------------------------------------- the owners of attempts

  /** The claims on attempts that scopes make. */
  ghost predicate ClaimsOf(scopes: map<Source, set<string>>, done: set<Source>, binds: seq<(string, string)>) {
    forall b :: b in binds <==> exists s :: s in done && s in scopes && b.0 in scopes[s] && b.1 == Text(s)
  }

  method BindsOf(key: string, ids: set<string>) returns (binds: seq<(string, string)>)
    ensures forall b :: b in binds <==> b.0 in ids && b.1 == key
  {
    binds := [];
    var todo := ids;
    while todo != {}
      invariant todo <= ids
      invariant forall b :: b in binds <==> b.0 in ids - todo && b.1 == key
    {
      var id :| id in todo;
      binds, todo := binds + [(id, key)], todo - {id};
    }
  }

  lemma ClaimsNext(scopes: map<Source, set<string>>, done: set<Source>, binds: seq<(string, string)>, s: Source,
      more: seq<(string, string)>)
    requires ClaimsOf(scopes, done, binds) && s in scopes
    requires forall b :: b in more <==> b.0 in scopes[s] && b.1 == Text(s)
    ensures ClaimsOf(scopes, done + {s}, binds + more)
  {
    hide Text;
  }

  method CollectBinds(scopes: map<Source, set<string>>) returns (binds: seq<(string, string)>)
    ensures ClaimsOf(scopes, scopes.Keys, binds)
  {
    hide ClaimsOf, Text;
    binds := [];
    var todo := scopes.Keys;
    assert scopes.Keys - todo == {};
    NoClaims(scopes);
    while todo != {}
      invariant todo <= scopes.Keys
      invariant ClaimsOf(scopes, scopes.Keys - todo, binds)
    {
      var s :| s in todo;
      assert scopes.Keys - (todo - {s}) == scopes.Keys - todo + {s};
      var more := BindsOf(Text(s), scopes[s]);
      ClaimsNext(scopes, scopes.Keys - todo, binds, s, more);
      binds, todo := binds + more, todo - {s};
    }
    assert scopes.Keys - todo == scopes.Keys;
  }

  lemma NoClaims(scopes: map<Source, set<string>>)
    ensures ClaimsOf(scopes, {}, [])
  {
  }

  /** The public attempts, each under one of the members that have it. */
  ghost predicate PublicOwners(p: Public, done: set<nat>, owners: map<string, string>) {
    && (forall id | id in owners :: exists n ::
                                      n in done && id in p.AttemptsOf(n) && owners[id] == Text(Source(p.sessionId, n)))
    && (forall n, id | n in done && id in p.AttemptsOf(n) :: id in owners)
  }

  method OwnPublic(p: Public) returns (owners: map<string, string>)
    ensures PublicOwners(p, p.members, owners)
  {
    hide Text;
    owners := map[];
    var todo := p.members;
    while todo != {}
      invariant todo <= p.members
      invariant PublicOwners(p, p.members - todo, owners)
    {
      var n :| n in todo;
      ghost var before := owners;
      owners, todo := owners + (map id | id in p.AttemptsOf(n) :: Text(Source(p.sessionId, n))), todo - {n};
    }
    assert p.members - todo == p.members;
  }

  // ---------------------------------------------------------------- indexing

  method Index<V>(all: set<Source>, value: Source -> V) returns (m: map<string, V>)
    ensures Indexed(all, m, value)
  {
    hide Indexed;
    m := map[];
    var todo := all;
    assert all - todo == {};
    NothingIndexed(value);
    while todo != {}
      invariant todo <= all
      invariant Indexed(all - todo, m, value)
    {
      var s :| s in todo;
      assert all - (todo - {s}) == all - todo + {s};
      IndexedNext(all - todo, m, value, s);
      m, todo := m[Text(s) := value(s)], todo - {s};
    }
    assert all - todo == all;
  }

  lemma NothingIndexed<V>(value: Source -> V)
    ensures Indexed({}, map[], value)
  {
  }

  // ---------------------------------------------------------------- the task

  /** An attempt is bound to a source that has it, and to no source that another
      workflow source or worker disputes; an attempt of one source only is bound. */
  ghost predicate OwnersRight(j: Joined, owners: map<string, string>) {
    && (forall id | id in owners :: exists s :: s in j.Sources() && owners[id] == Text(s) && j.SoleOwner(id, s))
    && (forall id, s |
          s in j.Sources() && id in j.AttemptsOf(s)
          && (forall o | o in j.Sources() && id in j.AttemptsOf(o) :: o == s) ::
          id in owners && owners[id] == Text(s))
  }

  /** Every claim of the graphs, of the members and of the other readers is kept. */
  ghost predicate ClaimsKept(sessionId: string, other: OtherClaims, claimed: Graph, claimedMembers: set<nat>, t: Task) {
    && (forall s | s in claimed.claimedSources :: Text(s) in t.claimedAccepted)
    && (forall n | n in claimedMembers :: Text(Source(sessionId, n)) in t.claimedAccepted)
    && other.sources <= t.claimedAccepted && claimed.claimedAttempts + other.attempts <= t.claimedAttempts
  }

  ghost predicate Built(j: Joined, other: OtherClaims, claimed: Graph, claimedMembers: set<nat>, t: Task) {
    && Indexed(j.Sources(), t.sourceByAccepted, SeqOf()) && Indexed(j.Children(), t.parents, ParentText(j))
    && OwnersRight(j, t.sourceByAttempt) && t.workers == Texts(j.workers.Keys)
    && ClaimsKept(j.public.sessionId, other, claimed, claimedMembers, t)
    && t.sessionId == j.public.sessionId && t.workflowRuns == other.workflowRuns && t.windows == other.windows
  }

  function Texts(sources: set<Source>): set<string> {
    set s | s in sources :: Text(s)
  }

  function SeqOf(): Source -> nat {
    (s: Source) => s.seqNo
  }

  function ParentText(j: Joined): Source -> string {
    (s: Source) => Text(j.ParentOf(s).GetOr(s))
  }

  function ScopeAttempts(j: Joined): map<Source, set<string>> {
    map s | s in j.workflow.Keys + j.workers.Keys :: j.AttemptsOf(s)
  }

  method BuildTask(j: Joined, other: OtherClaims, claimed: Graph, claimedMembers: set<nat>)
    returns (t: Task, conflicting: set<string>)
    requires j.Disjoint()
    ensures Built(j, other, claimed, claimedMembers, t)
  {
    hide *;
    var sourceByAccepted := Index(j.Sources(), SeqOf());
    var parents := Index(j.Children(), ParentText(j));
    var initial := OwnPublic(j.public);
    var binds := CollectBinds(ScopeAttempts(j));
    var bound;
    bound, conflicting := BindUsageAttempts(initial, binds);
    ClaimsFaithful(j, initial, binds);
    FaithfulOwners(j, Bindings(initial, binds), bound, conflicting);
    t := Assemble(j, other, claimed, claimedMembers, sourceByAccepted, bound, parents, initial.Keys);
    BuiltMeans(j, other, claimed, claimedMembers, t);
  }

  function Assemble(j: Joined, other: OtherClaims, claimed: Graph, claimedMembers: set<nat>,
      sourceByAccepted: map<string, nat>,
      bound: map<string, string>, parents: map<string, string>, publicAttempts: set<string>): (t: Task)
    ensures t.sourceByAccepted == sourceByAccepted && t.sourceByAttempt == bound && t.parents == parents
    ensures t.workers == Texts(j.workers.Keys)
    ensures t.sessionId == j.public.sessionId && t.workflowRuns == other.workflowRuns && t.windows == other.windows
    ensures ClaimsKept(j.public.sessionId, other, claimed, claimedMembers, t)
  {
    hide Text;
    var members := Texts(set n | n in claimedMembers :: Source(j.public.sessionId, n));
    Task(j.public.sessionId, sourceByAccepted, bound, Texts(j.workers.Keys), parents,
         members + Texts(claimed.claimedSources) + other.sources,
         publicAttempts + claimed.claimedAttempts + other.attempts, other.workflowRuns, other.windows)
  }

  lemma BuiltMeans(j: Joined, other: OtherClaims, claimed: Graph, claimedMembers: set<nat>, t: Task)
    requires Indexed(j.Sources(), t.sourceByAccepted, SeqOf()) && Indexed(j.Children(), t.parents, ParentText(j))
    requires OwnersRight(j, t.sourceByAttempt) && t.workers == Texts(j.workers.Keys)
    requires ClaimsKept(j.public.sessionId, other, claimed, claimedMembers, t)
    requires t.sessionId == j.public.sessionId && t.workflowRuns == other.workflowRuns && t.windows == other.windows
    ensures Built(j, other, claimed, claimedMembers, t)
  {
  }

  /** What the joined claims say: each names a source that has the attempt, and
      every source with an attempt is named, public ones by one of them. */
  ghost predicate Faithful(j: Joined, seen: set<(string, string)>) {
    && (forall p | p in seen :: NamesOwner(j, p))
    && forall id, s | s in j.Sources() && id in j.AttemptsOf(s) :: Named(j, seen, id, s)
  }

  ghost predicate NamesOwner(j: Joined, p: (string, string)) {
    exists s :: s in j.Sources() && p.1 == Text(s) && p.0 in j.AttemptsOf(s)
  }

  ghost predicate Named(j: Joined, seen: set<(string, string)>, id: string, s: Source) {
    exists o :: Stands(j, s, o) && id in j.AttemptsOf(o) && (id, Text(o)) in seen
  }

  /** `o` is `s`, or both are public. */
  ghost predicate Stands(j: Joined, s: Source, o: Source) {
    o in j.Sources() && (o == s || (o in j.public.Keys() && s in j.public.Keys()))
  }

  lemma ScopeClaims(j: Joined, binds: seq<(string, string)>)
    requires ClaimsOf(ScopeAttempts(j), ScopeAttempts(j).Keys, binds)
    ensures forall b ::
              b in binds
              <==> exists s :: s in j.workflow.Keys + j.workers.Keys && b.0 in j.AttemptsOf(s) && b.1 == Text(s)
  {
    hide Joined.AttemptsOf, Text;
  }

  lemma PublicAttempts(j: Joined, n: nat)
    requires j.Disjoint() && n in j.public.members
    ensures var s := Source(j.public.sessionId, n);
            s in j.Sources() && s in j.public.Keys() && j.AttemptsOf(s) == j.public.AttemptsOf(n)
  {
  }

  lemma ClaimsFaithful(j: Joined, initial: map<string, string>, binds: seq<(string, string)>)
    requires j.Disjoint() && PublicOwners(j.public, j.public.members, initial)
    requires ClaimsOf(ScopeAttempts(j), ScopeAttempts(j).Keys, binds)
    ensures Faithful(j, Bindings(initial, binds))
  {
    ScopeClaims(j, binds);
    forall n | n in j.public.members {
      PublicAttempts(j, n);
    }
    var seen := Bindings(initial, binds);
    hide Joined.AttemptsOf, Text, Public.AttemptsOf, ClaimsOf, Joined.Disjoint;
    forall p | p in seen ensures NamesOwner(j, p) {
      if p !in binds {
        var n :| n in j.public.members && p.0 in j.public.AttemptsOf(n)
            && initial[p.0] == Text(Source(j.public.sessionId, n));
        assert Source(j.public.sessionId, n) in j.Sources();
      }
    }
    forall id, s | s in j.Sources() && id in j.AttemptsOf(s)
      ensures Named(j, seen, id, s)
    {
      if s in j.workflow.Keys + j.workers.Keys {
        assert (id, Text(s)) in binds && Stands(j, s, s);
      } else {
        assert id in j.public.AttemptsOf(s.seqNo);
        var n :| n in j.public.members && id in j.public.AttemptsOf(n)
            && initial[id] == Text(Source(j.public.sessionId, n));
        assert Stands(j, s, Source(j.public.sessionId, n));
      }
    }
  }

  lemma ClaimedSource(j: Joined, p: (string, string)) returns (s: Source)
    requires NamesOwner(j, p)
    ensures s in j.Sources() && p.1 == Text(s) && p.0 in j.AttemptsOf(s)
  {
    s :| s in j.Sources() && p.1 == Text(s) && p.0 in j.AttemptsOf(s);
  }

  lemma ClaimFor(j: Joined, seen: set<(string, string)>, id: string, s: Source) returns (o: Source)
    requires Named(j, seen, id, s)
    ensures Stands(j, s, o) && id in j.AttemptsOf(o) && (id, Text(o)) in seen
  {
    o :| Stands(j, s, o) && id in j.AttemptsOf(o) && (id, Text(o)) in seen;
  }

  lemma BoundIsSole(j: Joined, seen: set<(string, string)>, bound: map<string, string>, conflicting: set<string>,
      id: string)
    returns (s: Source)
    requires Faithful(j, seen) && Settled(seen, bound, conflicting) && id in bound
    ensures s in j.Sources() && bound[id] == Text(s) && j.SoleOwner(id, s)
  {
    hide NamesOwner, Named, Joined.AttemptsOf, Joined.Sources, Text, ContestedKeys, Public.Keys;
    s := ClaimedSource(j, (id, bound[id]));
    forall o | o in j.Sources() && id in j.AttemptsOf(o) && o != s
      ensures o in j.public.Keys() && s in j.public.Keys() {
      var x := ClaimFor(j, seen, id, o);
      TextInjective(x, s);
      if x != s {
        Disputed(seen, id, Text(x), Text(s));
      }
    }
  }

  lemma SoleIsBound(j: Joined, seen: set<(string, string)>, bound: map<string, string>, conflicting: set<string>,
      id: string, s: Source)
    requires Faithful(j, seen) && Settled(seen, bound, conflicting) && s in j.Sources() && id in j.AttemptsOf(s)
    requires forall o | o in j.Sources() && id in j.AttemptsOf(o) :: o == s
    ensures id in bound && bound[id] == Text(s)
  {
    hide NamesOwner, Named, Joined.AttemptsOf, Joined.Sources, Text, Public.Keys;
    var x := ClaimFor(j, seen, id, s);
    forall p | p in seen && p.0 == id ensures p.1 == Text(s) {
      var o := ClaimedSource(j, p);
    }
  }

  lemma FaithfulOwners(j: Joined, seen: set<(string, string)>, bound: map<string, string>, conflicting: set<string>)
    requires Faithful(j, seen) && Settled(seen, bound, conflicting)
    ensures OwnersRight(j, bound)
  {
    hide Faithful, Settled, Joined.AttemptsOf, Joined.Sources, Joined.SoleOwner, Text;
    forall id | id in bound ensures exists s :: s in j.Sources() && bound[id] == Text(s) && j.SoleOwner(id, s) {
      var s := BoundIsSole(j, seen, bound, conflicting, id);
    }
    forall id, s |
      s in j.Sources() && id in j.AttemptsOf(s) && (forall o | o in j.Sources() && id in j.AttemptsOf(o) :: o == s)
      ensures id in bound && bound[id] == Text(s)
    {
      SoleIsBound(j, seen, bound, conflicting, id, s);
    }
  }

  lemma Disputed(seen: set<(string, string)>, id: string, a: string, b: string)
    requires (id, a) in seen && (id, b) in seen && a != b
    ensures id in ContestedKeys(seen)
  {
    assert Contested(seen, (id, a));
  }

  // ---------------------------------------------------------------- from scopes to the task

  /** Public sources win over workflow sources; workers are merged with both as
      roots, so the three kinds stay apart. */
  method ScopeTask(p: Public, proved: map<Source, WorkflowScope>, graphs: seq<Graph>, other: OtherClaims,
      claimedMembers: set<nat>)
    returns (t: Task, conflicting: set<string>, ghost j: Joined, ghost merged: Graph)
    requires p.parents.Keys <= p.members && forall g | g in graphs :: g.Valid()
    ensures j == Joined(p, proved - p.Keys(), merged.scopes) && j.Disjoint()
    ensures IsMerge(graphs, p.Keys() + (proved - p.Keys()).Keys, merged)
    ensures Built(j, other, merged, claimedMembers, t)
  {
    var workflow := proved - p.Keys();
    var workers := MergeGraphs(graphs, p.Keys() + workflow.Keys);
    MergedApart(graphs, p.Keys() + workflow.Keys, workers);
    j, merged := Joined(p, workflow, workers.scopes), workers;
    hide IsMerge, Built;
    t, conflicting := BuildTask(Joined(p, workflow, workers.scopes), other, workers, claimedMembers);
  }

  lemma MergedApart(graphs: seq<Graph>, roots: set<Source>, merged: Graph)
    requires IsMerge(graphs, roots, merged)
    ensures roots !! merged.scopes.Keys
  {
    forall k | k in merged.scopes ensures k !in roots {
      assert Lineal(Observed(graphs), roots, k);
    }
  }

  // ---------------------------------------------------------------- what a proved row names

  function Step(j: Joined): Source -> Option<Source> {
    (s: Source) => j.ParentOf(s)
  }

  function TextOfOption(s: Option<Source>): Option<string> {
    if s.Some? then Some(Text(s.value)) else None
  }

  /** The joined parent map follows the parents of the sources, source by source. */
  lemma StepTexts(j: Joined, parents: map<string, string>, s: Source)
    requires Indexed(j.Children(), parents, ParentText(j))
    ensures ParentStep(parents)(Text(s)) == TextOfOption(j.ParentOf(s))
  {
    hide Text;
    assert j.ParentOf(s).Some? ==> s in j.Children();
    if Text(s) in parents {
      var c :| c in j.Children() && Text(c) == Text(s);
      TextInjective(c, s);
    }
  }

  lemma {:induction false} AtTexts(j: Joined, parents: map<string, string>, s: Source, n: nat)
    requires Indexed(j.Children(), parents, ParentText(j))
    ensures At(ParentStep(parents), Some(Text(s)), n) == TextOfOption(At(Step(j), Some(s), n))
  {
    hide Text, Indexed, Joined.ParentOf;
    if n > 0 {
      AtTexts(j, parents, s, n - 1);
      var before := At(Step(j), Some(s), n - 1);
      if before.Some? {
        StepTexts(j, parents, before.value);
      }
    }
  }

  lemma ReachesTexts(j: Joined, parents: map<string, string>, s: Source, a: Source)
    requires Indexed(j.Children(), parents, ParentText(j))
    ensures Reaches(ParentStep(parents), Some(Text(s)), Text(a)) <==> Reaches(Step(j), Some(s), a)
  {
    hide Text, Indexed;
    if n: nat :| At(ParentStep(parents), Some(Text(s)), n) == Some(Text(a)) {
      AtTexts(j, parents, s, n);
      TextInjective(At(Step(j), Some(s), n).value, a);
    }
    if n: nat :| At(Step(j), Some(s), n) == Some(a) {
      AtTexts(j, parents, s, n);
    }
  }

  /** The row names `a` and its turn, and an attempt of `s`; `a` is `s` itself for a
      worker, and `s` or one of its ancestors otherwise. */
  ghost predicate Names(j: Joined, row: UsageRow, s: Source, a: Source) {
    && row.Attempt().Some? && s in j.Sources() && j.SoleOwner(row.Attempt().value, s)
    && a in j.Sources() && row.AcceptedSource() == Some(Text(a))
    && row.LogicalTurn() == Some("turn:" + Decimal(a.seqNo))
    && if s in j.workers then a == s else Reaches(Step(j), Some(s), a)
  }

  lemma WorkerTexts(j: Joined, s: Source)
    ensures Text(s) in Texts(j.workers.Keys) <==> s in j.workers
  {
    if Text(s) in Texts(j.workers.Keys) {
      var k :| k in j.workers && Text(k) == Text(s);
      TextInjective(k, s);
    }
  }

  /** Only such rows are proved by their trace ... */
  lemma TracesAreNames(j: Joined, other: OtherClaims, claimed: Graph, claimedMembers: set<nat>, t: Task, row: UsageRow)
    returns (s: Source, a: Source)
    requires Built(j, other, claimed, claimedMembers, t) && t.Traces(row)
    ensures Names(j, row, s, a)
  {
    hide Text, Texts, Joined.Sources, Joined.AttemptsOf, Joined.ParentOf, Joined.Children, ParentText, Joined.SoleOwner;
    var id, key := row.Attempt().value, row.AcceptedSource().value;
    s :| s in j.Sources() && t.sourceByAttempt[id] == Text(s) && j.SoleOwner(id, s);
    a :| a in j.Sources() && Text(a) == key;
    WorkerTexts(j, s);
    TextInjective(a, s);
    ReachesTexts(j, t.parents, s, a);
    hide Reaches;
  }

  lemma OneOwner(j: Joined, id: string, s: Source)
    requires j.Disjoint() && j.public.OneSource() && j.SoleOwner(id, s)
    ensures forall o | o in j.Sources() && id in j.AttemptsOf(o) :: o == s
  {
    forall n | n in j.public.members {
      PublicAttempts(j, n);
    }
    hide Joined.AttemptsOf, Joined.Sources, Joined.Disjoint, Public.AttemptsOf;
  }

  lemma SoleIsOwned(j: Joined, owners: map<string, string>, id: string, s: Source)
    requires OwnersRight(j, owners) && s in j.Sources() && id in j.AttemptsOf(s)
    requires forall o | o in j.Sources() && id in j.AttemptsOf(o) :: o == s
    ensures id in owners && owners[id] == Text(s)
  {
    hide Text, Joined.AttemptsOf, Joined.Sources, Joined.SoleOwner;
  }

  /** ... and all of them, since an attempt row belongs to one source. */
  lemma NamesAreTraces(j: Joined, other: OtherClaims, claimed: Graph, claimedMembers: set<nat>, t: Task, row: UsageRow,
      s: Source, a: Source)
    requires Built(j, other, claimed, claimedMembers, t) && j.Disjoint() && j.public.OneSource() && Names(j, row, s, a)
    ensures t.Traces(row)
  {
    hide Reaches, OwnersRight, Public.OneSource, Text, Texts, Joined.Sources, Joined.AttemptsOf, Joined.ParentOf,
    Joined.Children,
      ParentText, Joined.Disjoint, ClaimsKept;
    var id := row.Attempt().value;
    OneOwner(j, id, s);
    SoleIsOwned(j, t.sourceByAttempt, id, s);
    hide Joined.SoleOwner;
    WorkerTexts(j, s);
    TextInjective(a, s);
    ReachesTexts(j, t.parents, s, a);
  }

  // ---------------------------------------------------------------- workers

  /** The graph holds exactly the surviving workers of one discovery. */
  ghost predicate Discovered(v: W.View, g: Graph) {
    && (forall k :: k in g.scopes <==> v.Survives(k))
    && forall k | k in g.scopes :: v.Holds(k, g.scopes[k])
  }

  /** A proved row of a worker names the worker itself and one of its attempts,
      which descends, dispatch by dispatch, from a public root's attempt. */
  lemma WorkerRowsDescend(j: Joined, graphs: seq<Graph>, roots: set<Source>, merged: Graph, row: UsageRow, s: Source,
      a: Source)
    returns (v: W.View, g: Graph)
    requires IsMerge(graphs, roots, merged) && j.workers == merged.scopes
    requires forall x | x in graphs :: exists y :: Discovered(y, x)
    requires Names(j, row, s, a) && s in j.workers
    ensures a == s && g in graphs && Discovered(v, g)
    ensures W.Descends(v, g, s, row.Attempt().value)
  {
    hide Lineal, Observed, Agreed, Joined.Sources, Text, W.Descends, Graph.Valid;
    g :| g in graphs && s in g.scopes && g.scopes[s] == merged.scopes[s];
    v :| Discovered(v, g);
    W.AttemptsDescend(v, g, s, row.Attempt().value);
  }

  // ---------------------------------------------------------------- public rows

  lemma PublicParents(j: Joined, n: nat)
    requires j.Disjoint() && n in j.public.members
    ensures var parent := if n in j.public.parents then Some(Source(j.public.sessionId, j.public.parents[n])) else None;
            j.ParentOf(Source(j.public.sessionId, n)) == parent
  {
    PublicAttempts(j, n);
  }

  /** The joined parent map keeps the members' own lineage: it holds their parents
      as they are, and gives the root none. */
  lemma JoinedKeepsMembers(j: Joined, parents: map<string, string>, root: nat)
    requires j.Disjoint() && Indexed(j.Children(), parents, ParentText(j))
    requires root in j.public.members && root !in j.public.parents
    ensures forall n | n in j.public.parents ::
              var key := SourceKey(j.public.sessionId, n);
              key in parents && parents[key] == SourceKey(j.public.sessionId, j.public.parents[n])
    ensures SourceKey(j.public.sessionId, root) !in parents
  {
    forall n | n in j.public.members
      ensures var key := SourceKey(j.public.sessionId, n);
              if n in j.public.parents
              then key in parents && parents[key] == SourceKey(j.public.sessionId, j.public.parents[n])
              else key !in parents
    {
      PublicParents(j, n);
      StepTexts(j, parents, Source(j.public.sessionId, n));
    }
  }

  /** A proved row of a member names the member or one of its ancestors in the
      approval lineage. */
  lemma PublicRowsFollowLineage(j: Joined, s: Session, continuations: seq<Continuation>, row: UsageRow, owner: Source,
      a: Source)
    requires j.Disjoint() && Linked(s, j.public.members, j.public.parents, continuations) && s.root in j.public.members
    requires Names(j, row, owner, a) && owner in j.public.Keys()
    ensures a.sessionId == j.public.sessionId && a.seqNo in j.public.members
    ensures Reaches(ParentStep(j.public.parents), Some(owner.seqNo), a.seqNo)
  {
    var n: nat :| At(Step(j), Some(owner), n) == Some(a);
    AtMembers(j, s, continuations, owner.seqNo, n);
  }

  lemma {:induction false} AtMembers(j: Joined, s: Session, continuations: seq<Continuation>, m: nat, n: nat)
    requires j.Disjoint() && Linked(s, j.public.members, j.public.parents, continuations) && m in j.public.members
    ensures var at := At(ParentStep(j.public.parents), Some(m), n);
            && At(Step(j), Some(Source(j.public.sessionId, m)), n)
                == (if at.Some? then Some(Source(j.public.sessionId, at.value)) else None)
            && (at.Some? ==> at.value in j.public.members)
  {
    hide Continue;
    if n > 0 {
      AtMembers(j, s, continuations, m, n - 1);
      var before := At(ParentStep(j.public.parents), Some(m), n - 1);
      if before.Some? {
        PublicParents(j, before.value);
      }
    }
    hide Joined.ParentOf, Joined.Disjoint;
  }

  // ---------------------------------------------------------------- no claim is lost

  /** A row that names a claimed source or attempt is exact or unproven, never
      ignored or left to the time window. */
  lemma ClaimedRowsAreKept(j: Joined, other: OtherClaims, claimed: Graph, claimedMembers: set<nat>, t: Task,
      selections: Selections,
      i: nat, row: UsageRow)
    requires Built(j, other, claimed, claimedMembers, t)
    requires || (row.Attempt().Some? && row.Attempt().value in claimed.claimedAttempts)
             || exists s :: s in claimed.claimedSources && row.AcceptedSource() == Some(Text(s))
    ensures var k := ClassOf(t, selections, i, row); k.Exact() || k.Unproven()
  {
    hide Indexed, OwnersRight, Text, Task.Traces;
  }

  // ---------------------------------------------------------------- what the joined maps read

  /** A source has exactly the attempts that its own scope gives it. */
  lemma AttemptsAre(j: Joined, s: Source, id: string)
    requires j.Disjoint()
    ensures id in j.AttemptsOf(s) <==>
              || (s in j.workers && id in j.workers[s].attempts)
              || (s in j.workflow && id in j.workflow[s].attempts)
              || (s.sessionId == j.public.sessionId && s.seqNo in j.public.members && s.seqNo in j.public.attempts
                  && id in j.public.attempts[s.seqNo])
  {
    if s.sessionId == j.public.sessionId && s.seqNo in j.public.members {
      assert s in j.public.Keys();
    }
  }

  /** A source has exactly the parent that its own scope gives it. */
  lemma ParentIs(j: Joined, s: Source, q: Source)
    requires j.Disjoint()
    ensures j.ParentOf(s) == Some(q) <==>
              || (s in j.workers && j.workers[s].participant.parentSessionId == q.sessionId
                  && j.workers[s].participant.parentSourceUserSeq == q.seqNo)
              || (s in j.workflow && j.workflow[s].parent == Some(q))
              || (s.sessionId == j.public.sessionId == q.sessionId && s.seqNo in j.public.parents
                  && j.public.parents[s.seqNo] == q.seqNo)
  {
    if s.sessionId == j.public.sessionId && s.seqNo in j.public.members {
      assert s in j.public.Keys();
    }
  }
}
