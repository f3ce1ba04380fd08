/** Does a worker attempt descend from one exact parent call? The dispatch-lease
    parent chain and the approval control chain are followed with visited sets
    over arbitrary, possibly cyclic, tables
    (scripts/session-comparison.ts, workerAttemptOwnsParentCall). */
module LeaseChain {
  import opened Identifiers
  import opened Chains

  type LeaseKey = (string, string)

  datatype Lease = Lease(
    sourceUserSeq: Option<int>,
    acceptedTaskId: Option<string>,
    logicalToolCallId: Option<string>,
    runAttemptId: Option<string>,
    toolName: Option<string>,
    argumentDigest: Option<string>,
    parentScope: Option<string>,
    parentLease: Option<string>)

  datatype Owner = Owner(sessionId: string, sourceUserSeq: int)

  /** One read of a control's execution source: it may fail outright. */
  datatype Approval = Unreadable | Read(source: Option<nat>)

  datatype Parent = Parent(sessionId: string, seqNo: nat, callId: string, argumentDigest: string)

  /** The finite tables, and which (session, source, attempt) triples are already
      proved to belong to the parent's own lineage. */
  datatype Store = Store(
    leases: map<LeaseKey, Lease>,
    owners: map<string, Owner>,
    approvals: nat -> Approval,
    ownsParentAttempt: (string, int, string) -> bool,
    deliverySessionId: string,
    deliverySources: set<nat>)

  datatype Verdict = Proven | Unproven | Broken

  /** `scope && lease`: both present and neither empty. */
  function Pointer(scope: Option<string>, lease: Option<string>): Option<LeaseKey> {
    if scope.Some? && lease.Some? && scope.value != ""
        && lease.value != "" then Some((scope.value, lease.value)) else None
  }

  predicate Matches(row: Lease, parent: Parent) {
    && row.sourceUserSeq == Some(parent.seqNo as int)
    && row.acceptedTaskId == Some("task:" + parent.sessionId + "#" + Decimal(parent.seqNo))
    && row.logicalToolCallId == Some(parent.callId)
    && row.toolName == Some("run_worker")
    && row.argumentDigest == Some(parent.argumentDigest)
  }

  function PositiveSeq(x: int): Option<nat> {
    if 0 < x <= MAX_SAFE_INTEGER then Some(x) else None
  }

  // ---------------------------------------------------------------- what the answer means

  /** The parent lease of a lease that does not match; the walk ends at a match. */
  function LeaseStep(s: Store, parent: Parent): LeaseKey -> Option<LeaseKey> {
    k => if k in s.leases && !Matches(s.leases[k], parent)
         then Pointer(s.leases[k].parentScope, s.leases[k].parentLease) else None
  }

  predicate Continues(s: Store, parent: Parent, source: nat) {
    source != parent.seqNo && parent.sessionId == s.deliverySessionId && source in s.deliverySources
  }

  /** The execution source of a delivery source that is not the parent. */
  function ControlStep(s: Store, parent: Parent): nat -> Option<nat> {
    source => if Continues(s, parent, source) && s.approvals(source).Read? then s.approvals(source).source else None
  }

  ghost predicate LeadsBack(s: Store, parent: Parent, source: Option<nat>) {
    Reaches(ControlStep(s, parent), source, parent.seqNo)
  }

  /** The walk back meets a control that cannot be read. */
  ghost predicate MeetsUnreadable(s: Store, parent: Parent, source: Option<nat>) {
    exists c :: Reaches(ControlStep(s, parent), source, c) && Continues(s, parent, c) && s.approvals(c).Unreadable?
  }

  /** The matching row's attempt belongs to the parent session's proved lineage. */
  predicate OwnerProved(s: Store, parent: Parent, row: Lease) {
    && row.runAttemptId.Some? && row.runAttemptId.value in s.owners
    && var owner := s.owners[row.runAttemptId.value];
       owner.sessionId == parent.sessionId
           && s.ownsParentAttempt(owner.sessionId, owner.sourceUserSeq, row.runAttemptId.value)
  }

  function OwnerSource(s: Store, row: Lease): Option<nat>
    requires row.runAttemptId.Some? && row.runAttemptId.value in s.owners
  {
    PositiveSeq(s.owners[row.runAttemptId.value].sourceUserSeq)
  }

  /** `k` is the first matching row on the chain from `start`. */
  ghost predicate FirstMatch(s: Store, parent: Parent, start: Option<LeaseKey>, k: LeaseKey) {
    Reaches(LeaseStep(s, parent), start, k) && k in s.leases && Matches(s.leases[k], parent)
  }

  ghost predicate ChildProves(s: Store, parent: Parent, start: Option<LeaseKey>) {
    exists k :: FirstMatch(s, parent, start, k) && OwnerProved(s, parent, s.leases[k])
                && LeadsBack(s, parent, OwnerSource(s, s.leases[k]))
  }

  ghost predicate ChildBreaks(s: Store, parent: Parent, start: Option<LeaseKey>) {
    exists k :: FirstMatch(s, parent, start, k) && OwnerProved(s, parent, s.leases[k])
                && MeetsUnreadable(s, parent, OwnerSource(s, s.leases[k]))
  }

  // ---------------------------------------------------------------- the walks

  /** A control walk never both leads back to the parent and meets an
      unreadable control: each would be the end of the one chain. */
  lemma WalkHasOneEnd(s: Store, parent: Parent, start: Option<nat>)
    ensures !(LeadsBack(s, parent, start) && MeetsUnreadable(s, parent, start))
  {
    if LeadsBack(s, parent, start) && MeetsUnreadable(s, parent, start) {
      var c :| Reaches(ControlStep(s, parent), start, c) && Continues(s, parent, c) && s.approvals(c).Unreadable?;
      TerminalUnique(ControlStep(s, parent), start, parent.seqNo, c);
    }
  }

  lemma FirstMatchUnique(s: Store, parent: Parent, start: Option<LeaseKey>, k: LeaseKey, m: LeaseKey)
    requires FirstMatch(s, parent, start, k) && FirstMatch(s, parent, start, m)
    ensures k == m
  {
    TerminalUnique(LeaseStep(s, parent), start, k, m);
  }

  method WalkControls(s: Store, parent: Parent, start: Option<nat>) returns (v: Verdict)
    ensures v == Proven <==> LeadsBack(s, parent, start)
    ensures v == Broken <==> MeetsUnreadable(s, parent, start)
  {
    var source, controls := start, {};
    ghost var step := ControlStep(s, parent);
    ghost var trace: seq<nat> := [];
    WalkHasOneEnd(s, parent, start);
    while source.Some? && Continues(s, parent, source.value) && source.value !in controls
      invariant source == At(step, start, |trace|)
      invariant Visited(step, start, trace, controls)
      invariant forall c | c in controls :: Continues(s, parent, c) && s.approvals(c).Read?
      decreases s.deliverySources - controls
    {
      VisitNext(step, start, trace, controls, source.value);
      controls := controls + {source.value};
      var approval := s.approvals(source.value);
      if approval.Unreadable? {
        return Broken;
      }
      trace := trace + [source.value];
      source := approval.source;
    }
    if source == Some(parent.seqNo) {
      return Proven;
    }
    WalkStops(s, parent, start, trace, controls);
    return Unproven;
  }

  lemma WalkStops(s: Store, parent: Parent, start: Option<nat>, trace: seq<nat>, controls: set<nat>)
    requires Visited(ControlStep(s, parent), start, trace, controls)
    requires forall c | c in controls :: Continues(s, parent, c) && s.approvals(c).Read?
    requires var source := At(ControlStep(s, parent), start, |trace|);
             source.Some? ==> source.value != parent.seqNo && (source.value in controls
                                                               || !Continues(s, parent, source.value))
    ensures !LeadsBack(s, parent, start) && !MeetsUnreadable(s, parent, start)
  {
    var step := ControlStep(s, parent);
    var source := At(step, start, |trace|);
    if source.Some? && source.value !in controls {
      VisitNext(step, start, trace, controls, source.value);
      StopSeesAll(step, start, trace + [source.value], controls + {source.value});
    } else {
      StopSeesAll(step, start, trace, controls);
    }
  }

  /** A matching row decides the child by itself. */
  lemma MatchDecides(s: Store, parent: Parent, start: Option<LeaseKey>, k: LeaseKey)
    requires FirstMatch(s, parent, start, k)
    ensures ChildProves(s, parent, start)
            <==> OwnerProved(s, parent, s.leases[k]) && LeadsBack(s, parent, OwnerSource(s, s.leases[k]))
    ensures ChildBreaks(s, parent, start)
            <==> OwnerProved(s, parent, s.leases[k]) && MeetsUnreadable(s, parent, OwnerSource(s, s.leases[k]))
  {
    forall m | FirstMatch(s, parent, start, m) ensures m == k {
      FirstMatchUnique(s, parent, start, m, k);
    }
    hide FirstMatch, LeadsBack, MeetsUnreadable, OwnerProved, OwnerSource;
  }

  /** A chain that stops without a match decides nothing. */
  lemma NoMatchDecides(s: Store, parent: Parent, start: Option<LeaseKey>, trace: seq<LeaseKey>, seen: set<LeaseKey>)
    requires Visited(LeaseStep(s, parent), start, trace, seen)
    requires var next := At(LeaseStep(s, parent), start, |trace|); next.Some? ==> next.value in seen
    requires forall k | k in seen && k in s.leases :: !Matches(s.leases[k], parent)
    ensures !ChildProves(s, parent, start) && !ChildBreaks(s, parent, start)
  {
    StopSeesAll(LeaseStep(s, parent), start, trace, seen);
  }

  method DecideMatch(s: Store, parent: Parent, start: Option<LeaseKey>, k: LeaseKey, ghost n: nat) returns (v: Verdict)
    requires At(LeaseStep(s, parent), start, n) == Some(k) && k in s.leases && Matches(s.leases[k], parent)
    ensures v == Proven <==> ChildProves(s, parent, start)
    ensures v == Broken <==> ChildBreaks(s, parent, start)
  {
    hide ChildProves, ChildBreaks, Matches;
    assert FirstMatch(s, parent, start, k);
    MatchDecides(s, parent, start, k);
    if !OwnerProved(s, parent, s.leases[k]) {
      return Unproven;
    }
    v := WalkControls(s, parent, OwnerSource(s, s.leases[k]));
  }

  /** Follow one child's lease chain to its first matching row. */
  method WalkLeases(s: Store, parent: Parent, start: Option<LeaseKey>) returns (v: Verdict)
    ensures v == Proven <==> ChildProves(s, parent, start)
    ensures v == Broken <==> ChildBreaks(s, parent, start)
  {
    hide ChildProves, ChildBreaks, Visited, Matches, At;
    var key, seen := start, {};
    ghost var step := LeaseStep(s, parent);
    ghost var trace: seq<LeaseKey> := [];
    assert Visited(step, start, trace, seen) by {
      VisitNone(step, start);
    }
    assert start == At(step, start, 0) by {
      AtStart(step, start);
    }
    while key.Some? && key.value !in seen
      invariant key == At(step, start, |trace|)
      invariant Visited(step, start, trace, seen)
      invariant forall k | k in seen :: k in s.leases && !Matches(s.leases[k], parent)
      decreases s.leases.Keys - seen
    {
      VisitNext(step, start, trace, seen, key.value);
      AtNext(step, start, |trace|, key.value);
      if key.value !in s.leases {
        NoMatchDecides(s, parent, start, trace + [key.value], seen + {key.value});
        return Unproven;
      }
      var row := s.leases[key.value];
      if Matches(row, parent) {
        v := DecideMatch(s, parent, start, key.value, |trace|);
        return;
      }
      trace, seen := trace + [key.value], seen + {key.value};
      key := Pointer(row.parentScope, row.parentLease);
    }
    NoMatchDecides(s, parent, start, trace, seen);
    return Unproven;
  }

  /** The answer is yes exactly when some child's chain proves the parent call
      and no earlier child's chain ran into an unreadable control. */
  method AttemptOwnsParentCall(s: Store, parent: Parent, children: seq<Option<LeaseKey>>) returns (owned: bool)
    ensures owned <==> exists i :: 0 <= i < |children| && ChildProves(s, parent, children[i])
                                   && forall j | 0 <= j < i :: !ChildBreaks(s, parent, children[j])
  {
    for i := 0 to |children|
      invariant forall j | 0 <= j < i :: !ChildProves(s, parent, children[j]) && !ChildBreaks(s, parent, children[j])
    {
      var v := WalkLeases(s, parent, children[i]);
      if v == Proven {
        BreaksOrProves(s, parent, children[i]);
        return true;
      }
      if v == Broken {
        return false;
      }
    }
    return false;
  }

  /** A chain never both proves the call and breaks. */
  lemma BreaksOrProves(s: Store, parent: Parent, start: Option<LeaseKey>)
    ensures !(ChildProves(s, parent, start) && ChildBreaks(s, parent, start))
  {
    if ChildProves(s, parent, start) && ChildBreaks(s, parent, start) {
      var k :| FirstMatch(s, parent, start, k) && OwnerProved(s, parent, s.leases[k])
          && LeadsBack(s, parent, OwnerSource(s, s.leases[k]));
      var m :| FirstMatch(s, parent, start, m) && OwnerProved(s, parent, s.leases[m])
          && MeetsUnreadable(s, parent, OwnerSource(s, s.leases[m]));
      FirstMatchUnique(s, parent, start, k, m);
      WalkHasOneEnd(s, parent, OwnerSource(s, s.leases[k]));
    }
  }

  // ---------------------------------------------------------------- what one row decides

  /** The columns of a row name exactly the parent call. */
  ghost predicate NamesCall(row: Lease, parent: Parent) {
    row == row.(sourceUserSeq := Some(parent.seqNo as int),
                acceptedTaskId := Some("task:" + parent.sessionId + "#" + Decimal(parent.seqNo)),
                logicalToolCallId := Some(parent.callId), toolName := Some("run_worker"),
                argumentDigest := Some(parent.argumentDigest))
  }

  lemma ProvesAlike(s: Store, parent: Parent, a: Option<LeaseKey>, b: Option<LeaseKey>)
    requires forall k :: FirstMatch(s, parent, a, k) <==> FirstMatch(s, parent, b, k)
    ensures ChildProves(s, parent, a) <==> ChildProves(s, parent, b)
    ensures ChildBreaks(s, parent, a) <==> ChildBreaks(s, parent, b)
  {
    hide FirstMatch, OwnerProved, LeadsBack, MeetsUnreadable;
  }

  lemma NothingMatches(s: Store, parent: Parent, start: Option<LeaseKey>)
    requires forall k :: !FirstMatch(s, parent, start, k)
    ensures !ChildProves(s, parent, start) && !ChildBreaks(s, parent, start)
  {
  }

  /** No lease, or one without a row, decides nothing. */
  lemma MissingLease(s: Store, parent: Parent, start: Option<LeaseKey>)
    requires start.None? || start.value !in s.leases
    ensures !ChildProves(s, parent, start) && !ChildBreaks(s, parent, start)
  {
    forall k ensures !FirstMatch(s, parent, start, k) {
      ReachesNone(LeaseStep(s, parent), k);
      if start.Some? {
        ReachesFirst(LeaseStep(s, parent), start.value, k);
      }
    }
    NothingMatches(s, parent, start);
  }

  /** A row of another call hands the question to the row that its two parent
      columns name, scope first, if both hold a text. */
  lemma ParentLeaseDecides(s: Store, parent: Parent, k: LeaseKey)
    requires k in s.leases && !NamesCall(s.leases[k], parent)
    ensures forall a, b |
              s.leases[k].parentScope == Some(a) && s.leases[k].parentLease == Some(b) && a != "" && b != "" ::
              && (ChildProves(s, parent, Some(k)) <==> ChildProves(s, parent, Some((a, b))))
              && (ChildBreaks(s, parent, Some(k)) <==> ChildBreaks(s, parent, Some((a, b))))
    ensures s.leases[k].parentScope in {None, Some("")} || s.leases[k].parentLease in {None, Some("")} ==>
              !ChildProves(s, parent, Some(k)) && !ChildBreaks(s, parent, Some(k))
  {
    var step := LeaseStep(s, parent);
    forall m ensures FirstMatch(s, parent, Some(k), m) <==> FirstMatch(s, parent, step(k), m) {
      ReachesFirst(step, k, m);
    }
    ProvesAlike(s, parent, Some(k), step(k));
    if step(k).None? {
      MissingLease(s, parent, None);
    }
  }

  /** A row of the call is decided by the attempt it names: the attempt runs in
      the parent's session, is trusted, and its source leads back or breaks. */
  lemma CallRowDecides(s: Store, parent: Parent, k: LeaseKey)
    requires k in s.leases && NamesCall(s.leases[k], parent)
    ensures s.leases[k].runAttemptId.None? ==> !ChildProves(s, parent, Some(k)) && !ChildBreaks(s, parent, Some(k))
    ensures forall id | s.leases[k].runAttemptId == Some(id) ::
              var trusted := id in s.owners && s.owners[id].sessionId == parent.sessionId
                             && s.ownsParentAttempt(parent.sessionId, s.owners[id].sourceUserSeq, id);
              && (ChildProves(s, parent, Some(k)) <==>
                    trusted && 0 < s.owners[id].sourceUserSeq <= MAX_SAFE_INTEGER
                    && LeadsBack(s, parent, Some(s.owners[id].sourceUserSeq)))
              && (ChildBreaks(s, parent, Some(k)) <==>
                    trusted && 0 < s.owners[id].sourceUserSeq <= MAX_SAFE_INTEGER
                    && MeetsUnreadable(s, parent, Some(s.owners[id].sourceUserSeq)))
  {
    ReachesFirst(LeaseStep(s, parent), k, k);
    assert FirstMatch(s, parent, Some(k), k);
    MatchDecides(s, parent, Some(k), k);
    NowhereLeads(s, parent);
    hide FirstMatch, ChildProves, ChildBreaks, LeadsBack, MeetsUnreadable, Matches;
  }

  lemma NowhereLeads(s: Store, parent: Parent)
    ensures !LeadsBack(s, parent, None) && !MeetsUnreadable(s, parent, None)
  {
    forall c {
      ReachesNone(ControlStep(s, parent), c);
    }
  }

  /** The parent source leads back at once; a delivery source of its session asks
      its execution source, or breaks when that is unreadable; no other does. */
  lemma ControlDecides(s: Store, parent: Parent, n: nat)
    ensures LeadsBack(s, parent, Some(n)) <==>
              || n == parent.seqNo
              || (parent.sessionId == s.deliverySessionId && n in s.deliverySources
                  && exists m :: s.approvals(n) == Read(Some(m)) && LeadsBack(s, parent, Some(m)))
    ensures MeetsUnreadable(s, parent, Some(n)) <==>
              && n != parent.seqNo && parent.sessionId == s.deliverySessionId && n in s.deliverySources
              && (s.approvals(n) == Unreadable
                  || exists m :: s.approvals(n) == Read(Some(m)) && MeetsUnreadable(s, parent, Some(m)))
  {
    var step := ControlStep(s, parent);
    NowhereLeads(s, parent);
    forall c {
      ReachesFirst(step, n, c);
    }
    if MeetsUnreadable(s, parent, step(n)) {
      var c :| Reaches(step, step(n), c) && Continues(s, parent, c) && s.approvals(c).Unreadable?;
    }
  }

  // ---------------------------------------------------------------- which owners matter

  /** Two stores that differ only in which attempts they already trust, and agree
      on those of the parent source and of the delivery sources of its session. */
  ghost predicate SameTrust(s: Store, t: Store, parent: Parent) {
    && t == s.(ownsParentAttempt := t.ownsParentAttempt)
    && forall source: int, id ::
         source == parent.seqNo || (parent.sessionId == s.deliverySessionId && source in s.deliverySources) ==>
         s.ownsParentAttempt(parent.sessionId, source, id) == t.ownsParentAttempt(parent.sessionId, source, id)
  }

  /** A source that is neither the parent nor a delivery source leads nowhere. */
  lemma StrangerLeadsNowhere(s: Store, parent: Parent, source: Option<nat>)
    requires source.Some? ==> source.value != parent.seqNo && !Continues(s, parent, source.value)
    ensures !LeadsBack(s, parent, source) && !MeetsUnreadable(s, parent, source)
  {
    WalkStops(s, parent, source, [], {});
  }

  /** So only attempts of the parent itself, or of the delivery sources of its
      session, can prove a call or break the search for its proof. */
  lemma OnlyParentTrustMatters(s: Store, t: Store, parent: Parent, start: Option<LeaseKey>)
    requires SameTrust(s, t, parent)
    ensures ChildProves(s, parent, start) <==> ChildProves(t, parent, start)
    ensures ChildBreaks(s, parent, start) <==> ChildBreaks(t, parent, start)
  {
    SameChains(s, t, parent, start);
    forall k | FirstMatch(s, parent, start, k) {
      SameOwner(s, t, parent, s.leases[k]);
    }
    hide FirstMatch, OwnerProved, LeadsBack, MeetsUnreadable, OwnerSource;
  }

  lemma SameChains(s: Store, t: Store, parent: Parent, start: Option<LeaseKey>)
    requires SameTrust(s, t, parent)
    ensures forall k :: FirstMatch(s, parent, start, k) <==> FirstMatch(t, parent, start, k)
  {
    SameSteps(LeaseStep(s, parent), LeaseStep(t, parent), start);
    hide Matches;
  }

  lemma SameOwner(s: Store, t: Store, parent: Parent, row: Lease)
    requires SameTrust(s, t, parent)
    ensures OwnerProved(s, parent, row) && LeadsBack(s, parent, OwnerSource(s, row))
            <==> OwnerProved(t, parent, row) && LeadsBack(t, parent, OwnerSource(t, row))
    ensures OwnerProved(s, parent, row) && MeetsUnreadable(s, parent, OwnerSource(s, row))
            <==> OwnerProved(t, parent, row) && MeetsUnreadable(t, parent, OwnerSource(t, row))
  {
    if row.runAttemptId.Some? && row.runAttemptId.value in s.owners {
      var source := OwnerSource(s, row);
      SameSteps(ControlStep(s, parent), ControlStep(t, parent), source);
      if source.None? || (source.value != parent.seqNo && !Continues(s, parent, source.value)) {
        StrangerLeadsNowhere(s, parent, source);
        StrangerLeadsNowhere(t, parent, source);
      }
    }
    hide Reaches;
  }
}
