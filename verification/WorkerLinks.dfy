/** One link of the worker lineage: a `worker_started` marker of a parent source
    and the child input it names (scripts/session-comparison.ts, the marker loop
    of readWorkerUsageGraph). A link is proved by reciprocal fields and by a lease
    chain that leads back to an attempt of the parent's own scope. */
module WorkerLinks {
  import opened Chains
  import opened Identifiers
  import opened Json
  import opened Lineage
  import L = LeaseChain

  /** The fields that marker, child input and session metadata must agree on. */
  datatype Fields = Fields(
    parentSessionId: Value, parentSourceUserSeq: Value, parentAcceptedTaskId: Value, parentLogicalCallId: Value,
    packetKey: Value, packetDigest: Value, item: Value)
  {
    function Printed(): Fields {
      Fields(parentSessionId.Printed(), parentSourceUserSeq.Printed(), parentAcceptedTaskId.Printed(),
             parentLogicalCallId.Printed(),
             packetKey.Printed(), packetDigest.Printed(), item.Printed())
    }

    predicate NameParent(parent: Source) {
      && parentSessionId == Str(parent.sessionId) && parentSourceUserSeq == Num(parent.seqNo as real)
      && parentAcceptedTaskId == Str("task:" + parent.sessionId + "#" + Decimal(parent.seqNo))
    }
  }

  /** A `worker_started` event; the child coordinates are present when they are
      an exact identity and a positive sequence. */
  datatype Marker = Marker(
    seqNo: nat, system: bool, sourceUserSeq: Value,
    childSessionId: Option<string>, childSourceUserSeq: Option<nat>, childAttemptId: Option<string>, fields: Fields)
  {
    function Child(): Option<Source> {
      if childSessionId.Some? && childSourceUserSeq.Some?
      then Some(Source(childSessionId.value, childSourceUserSeq.value)) else None
    }

    /** The owner under which the child is recorded. */
    function Owner(): Fields {
      fields.Printed()
    }
  }

  datatype Call = Call(toolName: string, argumentDigest: string, state: string)

  /** `digest` is the SHA-256 of the printed packet. */
  datatype Packet = Packet(item: Value, digest: string)

  /** The `delegatedWorker` record of a child input. */
  datatype Binding = Binding(composeOnly: bool, packet: Option<Packet>, fields: Fields)

  /** A user input event, with the event it answers. */
  datatype Input = Input(id: string, parentEventId: Option<string>, binding: Option<Binding>)

  /** An agent session's metadata. */
  datatype Metadata = Metadata(delegatedScope: bool, fields: Fields)

  /** The tables as read. `present` are the events that their sessions hold. */
  datatype Db = Db(
    markers: map<string, seq<Marker>>,
    inputs: map<Source, Input>,
    metadata: map<string, Metadata>,
    present: set<Source>,
    readable: set<string>,
    attempts: map<Source, seq<string>>,
    leasePointers: map<(string, string), seq<Option<L.LeaseKey>>>,
    leases: map<string, map<L.LeaseKey, L.Lease>>,
    attemptOwners: map<string, L.Owner>,
    approvals: string -> nat -> L.Approval,
    calls: map<(Source, string), Call>)
  {
    /** Inputs are events of readable sessions, and event ids are unique. */
    ghost predicate WellFormed() {
      && inputs.Keys <= present
      && (forall k | k in present :: k.sessionId in readable)
      && (forall a, b | a in inputs && b in inputs && inputs[a].id == inputs[b].id :: a == b)
    }

    /** The delegated inputs that point at this parent's input. */
    function OrphansOf(parent: Source): set<Source> {
      if parent !in inputs then {}
      else set o | o in inputs && inputs[o].parentEventId == Some(inputs[parent].id) && inputs[o].binding.Some?
    }

    function MarkersOf(sessionId: string): seq<Marker> {
      if sessionId in markers then markers[sessionId] else []
    }

    function AttemptsOf(source: Source): seq<string> {
      if source in attempts then attempts[source] else []
    }

    function PointersOf(sessionId: string, attemptId: string): seq<Option<L.LeaseKey>> {
      if (sessionId, attemptId) in leasePointers then leasePointers[(sessionId, attemptId)] else []
    }

    predicate Candidate(parent: Source, m: Marker) {
      || m.fields.parentSourceUserSeq == Num(parent.seqNo as real) || m.sourceUserSeq == Num(parent.seqNo as real)
      || (m.Child().Some? && m.Child().value in OrphansOf(parent))
    }

    ghost function Candidates(parent: Source): set<Marker> {
      set m | m in MarkersOf(parent.sessionId) && Candidate(parent, m)
    }

    /** Every child that a parent names, by marker or by the child's own pointer. */
    ghost function Names(parent: Source): set<Source> {
      OrphansOf(parent) + (set m | m in Candidates(parent) && m.Child().Some? :: m.Child().value)
    }
  }

  /** The proved public roots of one traversal. */
  datatype Context = Context(rootSessionId: string, roots: set<nat>, rootAttempts: Option<map<nat, set<string>>>)
  {
    function RootKeys(): set<Source> {
      set n | n in roots :: Source(rootSessionId, n)
    }

    /** An attempt of a public root that the caller vouches for. */
    predicate RootOwns(source: int, id: string) {
      rootAttempts.None? || (source in rootAttempts.value && id in rootAttempts.value[source])
    }
  }

  // ---------------------------------------------------------------- trusted attempts

  /** What the traversal trusts: the roots' attempts and those of admitted scopes. */
  predicate OwnsParentAttempt(c: Context, scopes: map<Source, Scope>, sessionId: string, source: int, id: string) {
    if sessionId == c.rootSessionId && source in c.roots then c.RootOwns(source, id)
    else source >= 0 && Source(sessionId, source) in scopes && id in scopes[Source(sessionId, source)].attempts
  }

  /** What a link is judged by: the roots' attempts and those of its own parent. */
  predicate OwnsVia(c: Context, parent: Source, own: set<string>, sessionId: string, source: int, id: string) {
    if sessionId == c.rootSessionId && source in c.roots then c.RootOwns(source, id)
    else source >= 0 && Source(sessionId, source) == parent && id in own
  }

  function StoreOf(db: Db, c: Context, sessionId: string, owns: (string, int, string) -> bool): L.Store {
    L.Store(if sessionId in db.leases then db.leases[sessionId] else map[],
            db.attemptOwners, db.approvals(sessionId), owns, c.rootSessionId, c.roots)
  }

  function StoreFor(db: Db, c: Context, scopes: map<Source, Scope>, sessionId: string): L.Store {
    StoreOf(db, c, sessionId, (session, source, id) => OwnsParentAttempt(c, scopes, session, source, id))
  }

  ghost function StoreVia(db: Db, c: Context, parent: Source, own: set<string>): L.Store {
    StoreOf(db, c, parent.sessionId, (session, source, id) => OwnsVia(c, parent, own, session, source, id))
  }

  /** The attempts of the parent's own scope, when it has one. */
  function OwnIn(scopes: map<Source, Scope>, parent: Source): set<string> {
    if parent in scopes then scopes[parent].attempts else {}
  }

  /** Of all admitted scopes, only the parent's own can matter to a link. */
  lemma OnlyOwnScopeMatters(db: Db, c: Context, scopes: map<Source, Scope>, parent: Source, call: L.Parent,
      start: Option<L.LeaseKey>)
    requires call.sessionId == parent.sessionId && call.seqNo == parent.seqNo
    ensures L.ChildProves(StoreFor(db, c, scopes, parent.sessionId), call, start)
            <==> L.ChildProves(StoreVia(db, c, parent, OwnIn(scopes, parent)), call, start)
    ensures L.ChildBreaks(StoreFor(db, c, scopes, parent.sessionId), call, start)
            <==> L.ChildBreaks(StoreVia(db, c, parent, OwnIn(scopes, parent)), call, start)
  {
    L.OnlyParentTrustMatters(StoreFor(db, c, scopes, parent.sessionId), StoreVia(db, c, parent, OwnIn(scopes, parent)),
                             call, start);
    hide L.ChildProves, L.ChildBreaks;
  }

  /** And for a public root not even that one. */
  lemma RootsNeedNoScope(db: Db, c: Context, parent: Source, a: set<string>, b: set<string>, call: L.Parent,
      start: Option<L.LeaseKey>)
    requires parent in c.RootKeys() && call.sessionId == parent.sessionId && call.seqNo == parent.seqNo
    ensures L.ChildProves(StoreVia(db, c, parent, a), call, start)
            <==> L.ChildProves(StoreVia(db, c, parent, b), call, start)
    ensures L.ChildBreaks(StoreVia(db, c, parent, a), call, start)
            <==> L.ChildBreaks(StoreVia(db, c, parent, b), call, start)
  {
    L.OnlyParentTrustMatters(StoreVia(db, c, parent, a), StoreVia(db, c, parent, b), call, start);
    hide L.ChildProves, L.ChildBreaks;
  }

  // ---------------------------------------------------------------- proof of one attempt

  /** Some lease row of the child's attempt proves the parent call. */
  ghost predicate AttemptProved(db: Db, c: Context, parent: Source, own: set<string>, child: Source, id: string,
      call: L.Parent) {
    var pointers, store := db.PointersOf(child.sessionId, id), StoreVia(db, c, parent, own);
    exists i :: 0 <= i < |pointers| && L.ChildProves(store, call, pointers[i])
                && forall j | 0 <= j < i :: !L.ChildBreaks(store, call, pointers[j])
  }

  lemma RootAttemptsNeedNoScope(db: Db, c: Context, parent: Source, a: set<string>, b: set<string>, child: Source,
      id: string, call: L.Parent)
    requires parent in c.RootKeys() && call.sessionId == parent.sessionId && call.seqNo == parent.seqNo
    ensures AttemptProved(db, c, parent, a, child, id, call) <==> AttemptProved(db, c, parent, b, child, id, call)
  {
    forall start {
      RootsNeedNoScope(db, c, parent, a, b, call, start);
    }
    hide L.ChildProves, L.ChildBreaks, StoreVia;
  }

  predicate ParentCall(db: Db, parent: Source, m: Marker) {
    var id := m.fields.parentLogicalCallId;
    && Exact(id) && (parent, id.s) in db.calls
    && var call := db.calls[(parent, id.s)];
       call.toolName == "run_worker" && Digest(call.argumentDigest) && call.state in {"open", "settled"}
  }

  function CallParent(db: Db, parent: Source, m: Marker): (call: L.Parent)
    requires ParentCall(db, parent, m)
    ensures call.sessionId == parent.sessionId && call.seqNo == parent.seqNo
  {
    var id := m.fields.parentLogicalCallId.s;
    L.Parent(parent.sessionId, parent.seqNo, id, db.calls[(parent, id)].argumentDigest)
  }

  /** The child's attempts that the link proves, given the parent's own attempts. */
  ghost function Owned(db: Db, c: Context, own: set<string>, parent: Source, m: Marker, child: Source): set<string> {
    if !ParentCall(db, parent, m) then {}
    else set id | id in db.AttemptsOf(child) && AttemptProved(db, c, parent, own, child, id, CallParent(db, parent, m))
  }

  lemma RootOwned(db: Db, c: Context, parent: Source, a: set<string>, b: set<string>, m: Marker, child: Source)
    requires parent in c.RootKeys()
    ensures Owned(db, c, a, parent, m, child) == Owned(db, c, b, parent, m, child)
  {
    if ParentCall(db, parent, m) {
      forall id {
        RootAttemptsNeedNoScope(db, c, parent, a, b, child, id, CallParent(db, parent, m));
      }
    }
    hide AttemptProved, ParentCall;
  }

  /** The attempt runs in the parent's session, and a public root or the parent's
      own scope answers for it. */
  ghost predicate Vouched(db: Db, c: Context, parent: Source, own: set<string>, id: string) {
    && id in db.attemptOwners && db.attemptOwners[id].sessionId == parent.sessionId
    && OwnsVia(c, parent, own, parent.sessionId, db.attemptOwners[id].sourceUserSeq, id)
  }

  /** The dispatch leases of the child's attempt lead to the parent call, which
      attempt `caller` made. */
  ghost predicate Dispatched(db: Db, c: Context, parent: Source, m: Marker, child: Source, id: string, caller: string) {
    ParentCall(db, parent, m)
    && var store := StoreVia(db, c, parent, {});
       exists start, k ::
         start in db.PointersOf(child.sessionId, id) && L.FirstMatch(store, CallParent(db, parent, m), start, k)
                          && store.leases[k].runAttemptId == Some(caller)
  }

  /** An owned attempt was dispatched by an attempt that someone answers for. */
  lemma OwnedIsDispatched(db: Db, c: Context, own: set<string>, parent: Source, m: Marker, child: Source, id: string)
    returns (caller: string)
    requires id in Owned(db, c, own, parent, m, child)
    ensures Dispatched(db, c, parent, m, child, id, caller) && Vouched(db, c, parent, own, caller)
  {
    hide L.LeadsBack, L.Matches, OwnsVia, ParentCall;
    var call, pointers, store := CallParent(db, parent, m), db.PointersOf(child.sessionId, id),
    StoreVia(db, c, parent, own);
    var i :| 0 <= i < |pointers| && L.ChildProves(store, call, pointers[i]);
    var k :| L.FirstMatch(store, call, pointers[i], k) && L.OwnerProved(store, call, store.leases[k]);
    caller := store.leases[k].runAttemptId.value;
    SameSteps(L.LeaseStep(store, call), L.LeaseStep(StoreVia(db, c, parent, {}), call), pointers[i]);
    assert L.FirstMatch(StoreVia(db, c, parent, {}), call, pointers[i], k);
  }

  /** Links of one owner to one child prove the same attempts. */
  lemma SameOwnerSameAttempts(db: Db, c: Context, own: set<string>, parent: Source, m: Marker, n: Marker, child: Source)
    requires m.Owner() == n.Owner() && ParentCall(db, parent, m) && ParentCall(db, parent, n)
    ensures Owned(db, c, own, parent, m, child) == Owned(db, c, own, parent, n, child)
  {
    assert m.fields.parentLogicalCallId == n.fields.parentLogicalCallId;
    hide AttemptProved;
  }

  // ---------------------------------------------------------------- proof of one link

  /** Marker, child input, session metadata and packet name each other. */
  predicate Reciprocal(db: Db, parent: Source, m: Marker, child: Source) {
    && m.system && m.fields.NameParent(parent) && m.sourceUserSeq in {Absent, Num(parent.seqNo as real)}
    && Exact(m.fields.packetKey) && Exact(m.fields.item) && m.fields.packetDigest.Str?
    && Digest(m.fields.packetDigest.s)
    && parent in db.inputs && child in db.inputs && db.inputs[child].parentEventId == Some(db.inputs[parent].id)
    && db.inputs[child].binding.Some?
    && child.sessionId in db.metadata && db.metadata[child.sessionId] == Metadata(true, m.fields)
    && var binding := db.inputs[child].binding.value;
       && binding.composeOnly && binding.fields == m.fields && binding.packet.Some?
       && binding.packet.value.item == m.fields.item && Str(binding.packet.value.digest) == m.fields.packetDigest
  }

  /** The whole proof of one link, judged by the parent's own attempts. */
  ghost predicate ValidLink(db: Db, c: Context, own: set<string>, parent: Source, m: Marker, child: Source) {
    && child in db.present && Reciprocal(db, parent, m, child) && ParentCall(db, parent, m)
    && parent.seqNo < child.seqNo < m.seqNo
    && m.childAttemptId.Some? && m.childAttemptId.value in Owned(db, c, own, parent, m, child)
  }

  /** The scope that a valid link admits: it is keyed by the child, and holds
      exactly the attempts that the link proves. */
  ghost predicate Admissible(db: Db, c: Context, own: set<string>, parent: Source, m: Marker, child: Source,
      scope: Scope) {
    && scope.Valid() && scope.attempts == Owned(db, c, own, parent, m, child)
    && scope.participant == Participant(child.sessionId, child.seqNo, parent.sessionId, parent.seqNo,
                                        TextOf(m.fields.parentLogicalCallId),
                                        TextOf(m.fields.packetKey), TextOf(m.fields.packetDigest),
                                        scope.participant.attemptIds)
  }

  /** A valid link names its parent, and its child points back at the parent. */
  lemma ValidLinkNames(db: Db, c: Context, own: set<string>, parent: Source, m: Marker, child: Source)
    requires ValidLink(db, c, own, parent, m, child)
    ensures m.fields.NameParent(parent) && child in db.OrphansOf(parent) && ParentCall(db, parent, m)
        && parent.seqNo < child.seqNo
    ensures child in db.present
  {
    hide Owned, ParentCall;
  }

  /** A link from a public root is judged without any scope. */
  lemma RootLinks(db: Db, c: Context, parent: Source, a: set<string>, b: set<string>, m: Marker, child: Source)
    requires parent in c.RootKeys()
    ensures ValidLink(db, c, a, parent, m, child) <==> ValidLink(db, c, b, parent, m, child)
  {
    RootOwned(db, c, parent, a, b, m, child);
    hide Owned, Reciprocal, ParentCall;
  }

  /** Valid links of one owner have one parent. */
  lemma OneOwnerOneParent(m: Marker, n: Marker, p: Source, q: Source)
    requires m.Owner() == n.Owner() && m.fields.NameParent(p) && n.fields.NameParent(q)
    ensures p == q
  {
    assert m.fields.parentSessionId == n.fields.parentSessionId
        && m.fields.parentSourceUserSeq == n.fields.parentSourceUserSeq;
  }

  method OwnedAttempts(db: Db, c: Context, scopes: map<Source, Scope>, parent: Source, m: Marker, child: Source)
      returns (owned: seq<string>)
    ensures forall id :: id in owned <==> id in Owned(db, c, OwnIn(scopes, parent), parent, m, child)
  {
    hide AttemptProved, ParentCall;
    owned := [];
    if !ParentCall(db, parent, m) {
      return;
    }
    var ids, call := db.AttemptsOf(child), CallParent(db, parent, m);
    for n := 0 to |ids|
      invariant forall id :: id in owned <==>
                                id in ids[..n] && AttemptProved(db, c, parent, OwnIn(scopes, parent), child, id, call)
    {
      var proved := ProveAttempt(db, c, scopes, parent, child, ids[n], call);
      assert ids[..n + 1] == ids[..n] + [ids[n]];
      if proved {
        owned := owned + [ids[n]];
      }
    }
    assert ids[..|ids|] == ids;
  }

  method ProveAttempt(db: Db, c: Context, scopes: map<Source, Scope>, parent: Source, child: Source, id: string,
      call: L.Parent)
    returns (proved: bool)
    requires call.sessionId == parent.sessionId && call.seqNo == parent.seqNo
    ensures proved <==> AttemptProved(db, c, parent, OwnIn(scopes, parent), child, id, call)
  {
    forall start {
      OnlyOwnScopeMatters(db, c, scopes, parent, call, start);
    }
    hide L.ChildProves, L.ChildBreaks, StoreVia, StoreFor;
    proved := L.AttemptOwnsParentCall(StoreFor(db, c, scopes, parent.sessionId), call,
                                      db.PointersOf(child.sessionId, id));
  }

  /** Keep the child's proved attempts, and check the whole proof. */
  method ProveLink(db: Db, c: Context, scopes: map<Source, Scope>, parent: Source, m: Marker, child: Source)
      returns (scope: Option<Scope>)
    ensures scope.Some? <==> ValidLink(db, c, OwnIn(scopes, parent), parent, m, child)
    ensures scope.Some? ==> Admissible(db, c, OwnIn(scopes, parent), parent, m, child, scope.value)
  {
    hide Owned, Reciprocal, ParentCall, OwnIn;
    var owned := OwnedAttempts(db, c, scopes, parent, m, child);
    scope := None;
    if child in db.present && Reciprocal(db, parent, m, child) && ParentCall(db, parent, m)
       && m.childAttemptId.Some? && m.childAttemptId.value in owned && parent.seqNo < child.seqNo < m.seqNo {
      var f := m.fields;
      scope := Some(Scope(Participant(child.sessionId, child.seqNo, parent.sessionId, parent.seqNo,
                                      TextOf(f.parentLogicalCallId),
                                      TextOf(f.packetKey), TextOf(f.packetDigest), owned),
                          set id | id in owned));
    }
  }
}
