/** Selection of the usage rows that approval-result display jobs caused
    (scripts/lib/accepted-task-approval-projection-usage.ts). Unlike the noticing
    selector this one reads each participant in one phase, and any shared
    identity invalidates every job that names it. */
module ProjectionUsage {
  import opened Identifiers
  import opened Usage
  import opened LastOwner
  import opened RowJoin

  datatype OriginalResponse = OriginalResponse(
    hostResultReceiptId: string, providerResponseIdDigest: string, responseOutputDigest: Option<string>)

  datatype Outcome = Returned | Failed | Unfinished | Unknown

  datatype ModelAttempt = ModelAttempt(
    modelCallId: string, physicalAttempt: real, outcome: Outcome, originalResponse: Option<OriginalResponse>)

  datatype Participant = Participant(
    projectionId: string,
    usageJobId: Option<string>,
    operation: string,
    revisionDigest: string,
    parentAcceptedSource: string,
    executionAcceptedSource: string,
    terminalEventId: string,
    accountingQualified: bool,
    attempts: seq<ModelAttempt>,
    startedAt: Option<int>,
    finishedAt: Option<int>)

  /** The job's own receipts place it after its accepted parent, in one session. */
  predicate ParentProved(f: Formats, job: Participant, claims: set<string>, acceptedSources: set<string>) {
    && job.usageJobId.Some? && job.usageJobId.value in claims
    && job.operation == "approval_result_projection"
    && job.projectionId == "approved-result:v1:" + job.revisionDigest
    && f.digest(job.revisionDigest)
    && job.parentAcceptedSource in acceptedSources
    && LaterInSession(ParseSource(job.parentAcceptedSource), ParseSource(job.executionAcceptedSource))
    && f.safeId(job.executionAcceptedSource) && f.safeId(job.terminalEventId)
    && job.accountingQualified
  }

  predicate LaterInSession(parent: Option<Source>, execution: Option<Source>) {
    && parent.Some? && execution.Some?
    && parent.value.sessionId == execution.value.sessionId
    && parent.value.seqNo < execution.value.seqNo <= MAX_SAFE_INTEGER
  }

  /** The key of one physical attempt of one job. */
  datatype Key = Key(job: string, call: string, attempt: real)

  /** An attempt that its job owns, with its original response when one is well formed. */
  datatype Owned = Owned(key: Key, response: Option<OriginalResponse>)

  datatype Binding = Binding(job: string, call: string, response: string)

  datatype Issue =
    | JobNotStarted
    | InvalidJobIdentity
    | DuplicateJob
    | UnprovedJobParent
    | InvalidAttempt
    | AttemptUsageUnknown
    | InvalidOriginalResponse
    | PhysicalInventoryUnknown
    | JobLifecycleUnknown
    | ConflictingJobOwner
    | ConflictingModelCallOwner
    | ConflictingOriginalResponse
    | DuplicateUsageResponse
    | ResponseUsageUnknown
    | UnprovedUsageRows
  {
    /** Issues about one participant, before any two are compared. */
    predicate JobIssue() {
      || JobNotStarted? || InvalidJobIdentity? || DuplicateJob? || UnprovedJobParent? || InvalidAttempt?
      || AttemptUsageUnknown? || InvalidOriginalResponse? || PhysicalInventoryUnknown? || JobLifecycleUnknown?
    }
  }

  // ---------------------------------------------------------------- what the selection means

  predicate AttemptIdentity(f: Formats, a: ModelAttempt) {
    f.safeId(a.modelCallId) && IsSafeInteger(a.physicalAttempt) && a.physicalAttempt >= 1.0
  }

  predicate SameAttempt(a: ModelAttempt, b: ModelAttempt) {
    a.modelCallId == b.modelCallId && a.physicalAttempt == b.physicalAttempt
  }

  predicate ValidResponse(f: Formats, r: OriginalResponse) {
    f.digest(r.providerResponseIdDigest) && f.safeId(r.hostResultReceiptId)
  }

  /** Attempt `m` is identified and is the first of its job with that identity. */
  ghost predicate OwnedAt(f: Formats, attempts: seq<ModelAttempt>, m: nat)
    requires m < |attempts|
  {
    AttemptIdentity(f, attempts[m]) && forall l | 0 <= l < m :: !SameAttempt(attempts[l], attempts[m])
  }

  function OwnedAttempt(f: Formats, id: string, a: ModelAttempt): Owned {
    Owned(Key(id, a.modelCallId, a.physicalAttempt),
          if a.originalResponse.Some? && ValidResponse(f, a.originalResponse.value) then a.originalResponse else None)
  }

  /** Attempt `m` is unidentified, repeated, or its answer is malformed. */
  ghost predicate FaultyAt(f: Formats, attempts: seq<ModelAttempt>, m: nat)
    requires m < |attempts|
  {
    !OwnedAt(f, attempts, m)
        || (attempts[m].originalResponse.Some? && !ValidResponse(f, attempts[m].originalResponse.value))
  }

  /** The attempts that the job owns among its first `n`. */
  ghost function OwnedAttempts(f: Formats, id: string, attempts: seq<ModelAttempt>, n: nat): set<Owned>
    requires n <= |attempts|
  {
    set m | 0 <= m < n && OwnedAt(f, attempts, m) :: OwnedAttempt(f, id, attempts[m])
  }

  ghost predicate Faulty(f: Formats, attempts: seq<ModelAttempt>, n: nat)
    requires n <= |attempts|
  {
    exists m :: 0 <= m < n && FaultyAt(f, attempts, m)
  }

  ghost predicate FirstWithId(jobs: seq<Participant>, n: nat)
    requires n < |jobs|
  {
    forall m | 0 <= m < n :: jobs[m].usageJobId != jobs[n].usageJobId
  }

  ghost predicate Named(f: Formats, job: Participant) {
    job.usageJobId.Some? && f.jobId(job.usageJobId.value)
  }

  ghost predicate AdmittedAt(f: Formats, jobs: seq<Participant>, n: nat, claims: set<string>,
      acceptedSources: set<string>)
    requires n < |jobs|
  {
    Named(f, jobs[n]) && FirstWithId(jobs, n) && ParentProved(f, jobs[n], claims, acceptedSources)
  }

  /** The participants whose identities are read at all, among the first `n`. */
  ghost function Admitted(f: Formats, jobs: seq<Participant>, n: nat, claims: set<string>,
      acceptedSources: set<string>): set<Participant>
    requires n <= |jobs|
  {
    set m | 0 <= m < n && AdmittedAt(f, jobs, m, claims, acceptedSources) :: jobs[m]
  }

  /** The job ids that are repeated, or whose first participant lacks its parent. */
  ghost function Rejected(f: Formats, jobs: seq<Participant>, n: nat, claims: set<string>,
      acceptedSources: set<string>): set<string>
    requires n <= |jobs|
  {
    set m | 0 <= m < n && Named(f, jobs[m]) && !AdmittedAt(f, jobs, m, claims, acceptedSources) ::
        jobs[m].usageJobId.value
  }

  /** Attempt `m` of an admitted participant is reported. */
  ghost predicate AttemptReported(f: Formats, attempts: seq<ModelAttempt>, m: nat, i: Issue)
    requires m < |attempts|
  {
    var a := attempts[m];
    if !OwnedAt(f, attempts, m) then i == InvalidAttempt
    else || (i == AttemptUsageUnknown && (a.outcome != Returned || a.originalResponse.None?))
         || (i == InvalidOriginalResponse && a.originalResponse.Some? && !ValidResponse(f, a.originalResponse.value))
  }

  ghost predicate AttemptsReported(f: Formats, attempts: seq<ModelAttempt>, n: nat, issues: set<Issue>)
    requires n <= |attempts|
  {
    forall i :: i in issues <==> exists m :: 0 <= m < n && AttemptReported(f, attempts, m, i)
  }

  /** Participant `n` is reported: for its identity, as a repetition, for its
      parent, or for its attempts and times. */
  ghost predicate Reported(f: Formats, jobs: seq<Participant>, n: nat, claims: set<string>,
      acceptedSources: set<string>, i: Issue)
    requires n < |jobs|
  {
    var job := jobs[n];
    if job.usageJobId.None? then i == JobNotStarted
    else if !f.jobId(job.usageJobId.value) then i == InvalidJobIdentity
    else if !FirstWithId(jobs, n) then i == DuplicateJob
    else if !ParentProved(f, job, claims, acceptedSources) then i == UnprovedJobParent
    else || (exists m :: 0 <= m < |job.attempts| && AttemptReported(f, job.attempts, m, i))
         || (i == PhysicalInventoryUnknown && job.attempts == [])
         || (i == JobLifecycleUnknown && (job.finishedAt.None? || job.startedAt.None?))
  }

  ghost predicate JobsReported(f: Formats, jobs: seq<Participant>, n: nat, claims: set<string>,
      acceptedSources: set<string>,
      issues: set<Issue>)
    requires n <= |jobs|
  {
    forall i :: i in issues <==> exists m :: 0 <= m < n && Reported(f, jobs, m, claims, acceptedSources, i)
  }

  /** The reports about participants, among all issues. */
  ghost predicate JobIssuesReported(f: Formats, jobs: seq<Participant>, claims: set<string>,
      acceptedSources: set<string>,
      issues: set<Issue>) {
    forall i: Issue | i.JobIssue() ::
      i in issues <==> exists m :: 0 <= m < |jobs| && Reported(f, jobs, m, claims, acceptedSources, i)
  }

  /** What the admitted participants say, without any order. */
  datatype Evidence = Evidence(faulty: set<string>, projections: set<(string, string)>, owned: set<Owned>)
  {
    ghost function Calls(): set<(string, string)> {
      set o | o in owned :: (o.key.call, o.key.job)
    }

    ghost function Responses(): set<(string, Key)> {
      set o | o in owned && o.response.Some? :: (o.response.value.providerResponseIdDigest, o.key)
    }

    ghost function Receipts(): set<(string, Key)> {
      set o | o in owned && o.response.Some? :: (o.response.value.hostResultReceiptId, o.key)
    }

    ghost function Invalid(): set<string> {
      faulty + ContestedOwners(projections) + ContestedOwners(Calls())
      + JobsOf(ContestedOwners(Responses())) + JobsOf(ContestedOwners(Receipts()))
    }
  }

  ghost function JobsOf(keys: set<Key>): set<string> {
    set k | k in keys :: k.job
  }

  /** What the evidence gains from one admitted participant. */
  ghost function Gain(f: Formats, e: Evidence, job: Participant): Evidence
    requires job.usageJobId.Some?
  {
    var id := job.usageJobId.value;
    Evidence(
      e.faulty + (if Faulty(f, job.attempts, |job.attempts|) then {id} else {}),
      e.projections + {(job.projectionId, id)},
      e.owned + OwnedAttempts(f, id, job.attempts, |job.attempts|))
  }

  ghost function EvidenceOf(f: Formats, admitted: set<Participant>, rejected: set<string>): Evidence {
    Evidence(
      rejected + (set job | job in admitted && job.usageJobId.Some? && Faulty(f, job.attempts, |job.attempts|) ::
          job.usageJobId.value),
      set job | job in admitted && job.usageJobId.Some? :: (job.projectionId, job.usageJobId.value),
      set job, o | job in admitted && job.usageJobId.Some?
          && o in OwnedAttempts(f, job.usageJobId.value, job.attempts, |job.attempts|) :: o)
  }

  ghost function JobEvidence(f: Formats, jobs: seq<Participant>, n: nat, claims: set<string>,
      acceptedSources: set<string>): Evidence
    requires n <= |jobs|
  {
    EvidenceOf(f, Admitted(f, jobs, n, claims, acceptedSources), Rejected(f, jobs, n, claims, acceptedSources))
  }

  predicate WriterRow(f: Formats, row: UsageRow) {
    row.role == Some("writer") && row.channel == Some("writer:approval_result_projection") && row.Standalone(f)
  }

  /** The row carries exactly the identities of one answered attempt of a valid job. */
  ghost predicate Proves(f: Formats, row: UsageRow, k: Key, e: Evidence) {
    && k.job !in e.Invalid()
    && WriterRow(f, row)
    && row.source == k.job && row.Call() == Some(k.call)
    && (f.sha256(row.responseId.value), k) in e.Responses()
  }

  ghost predicate OnlyProof(f: Formats, usage: seq<UsageRow>, i: nat, k: Key, e: Evidence)
    requires i < |usage|
  {
    Proves(f, usage[i], k, e) && forall j | 0 <= j < |usage| && j != i :: !Proves(f, usage[j], k, e)
  }

  ghost predicate ExactRow(f: Formats, usage: seq<UsageRow>, i: nat, e: Evidence)
    requires i < |usage|
  {
    exists k :: OnlyProof(f, usage, i, k, e)
  }

  ghost function ExactRows(f: Formats, usage: seq<UsageRow>, e: Evidence): set<nat> {
    set i: nat | i < |usage| && ExactRow(f, usage, i, e)
  }

  ghost function ClaimedRows(usage: seq<UsageRow>, claims: set<string>): set<nat> {
    set i: nat | i < |usage| && usage[i].source in claims
  }

  // ---------------------------------------------------------------- recording identities

  /** The selector's maps. A job is invalid when it is faulty, when a comparison
      of projection or call owners marked it, or when a comparison of response
      or receipt owners found it through the previous owner's binding. */
  datatype Ledger = Ledger(
    faulty: set<string>,
    projections: Tracker<string, string>,
    calls: Tracker<string, string>,
    responses: Tracker<string, Key>,
    receipts: Tracker<string, Key>,
    bindings: map<Key, Binding>,
    conflicted: set<string>)
  {
    predicate Invalid(job: string) {
      job in faulty || job in projections.marked || job in calls.marked || job in conflicted
    }

    ghost predicate Follows(e: Evidence) {
      && faulty == e.faulty
      && projections.Follows(e.projections)
      && calls.Follows(e.Calls())
      && responses.Follows(e.Responses())
      && receipts.Follows(e.Receipts())
    }

    ghost predicate Bound(owned: set<Owned>) {
      && (forall o | o in owned && o.response.Some? ::
            o.key in bindings
                && bindings[o.key] == Binding(o.key.job, o.key.call, o.response.value.providerResponseIdDigest))
      && (forall k | k in bindings :: exists o :: o in owned && o.response.Some? && o.key == k)
    }

    ghost predicate Faithful(e: Evidence) {
      Follows(e) && Bound(e.owned) && conflicted == JobsOf(responses.marked) + JobsOf(receipts.marked)
    }

    function Invalidate(job: string): Ledger {
      this.(faulty := faulty + {job})
    }

    function OwnProjection(projectionId: string, job: string): Ledger {
      this.(projections := projections.Observe(projectionId, job))
    }

    /** The jobs that one comparison of response or receipt owners invalidates. */
    function Shared(owners: map<string, Key>, id: string, key: Key): set<string> {
      if id in owners && owners[id] != key
      then (if owners[id] in bindings then {bindings[owners[id]].job} else {}) + {key.job}
      else {}
    }

    function OwnAttempt(o: Owned): Ledger {
      var owner := this.(calls := calls.Observe(o.key.call, o.key.job));
      if o.response.None? then owner
      else
        var response, receipt := o.response.value.providerResponseIdDigest, o.response.value.hostResultReceiptId;
        owner.(responses := responses.Observe(response, o.key),
               receipts := receipts.Observe(receipt, o.key),
               conflicted := conflicted + Shared(responses.last, response, o.key)
                   + Shared(receipts.last, receipt, o.key),
               bindings := bindings[o.key := Binding(o.key.job, o.key.call, response)])
    }

    lemma OwnAttemptFollows(e: Evidence, o: Owned)
      requires Follows(e)
      ensures OwnAttempt(o).Follows(e.(owned := e.owned + {o}))
    {
      EvidenceStep(e, o);
      ObserveFollows(calls, e.Calls(), o.key.call, o.key.job);
      if o.response.Some? {
        ObserveFollows(responses, e.Responses(), o.response.value.providerResponseIdDigest, o.key);
        ObserveFollows(receipts, e.Receipts(), o.response.value.hostResultReceiptId, o.key);
      }
    }

    /** Every stored owner key has a binding that names its own job ... */
    lemma OwnersHaveBindings(e: Evidence)
      requires Follows(e) && Bound(e.owned)
      ensures forall id | id in responses.last :: responses.last[id] in bindings
      ensures forall id | id in receipts.last :: receipts.last[id] in bindings
      ensures forall k | k in bindings :: bindings[k].job == k.job
    {
    }

    /** ... so a conflict always finds, and invalidates, the other job. */
    lemma SharedJobs(owners: map<string, Key>, id: string, key: Key)
      requires forall i | i in owners :: owners[i] in bindings
      requires forall k | k in bindings :: bindings[k].job == k.job
      ensures Shared(owners, id, key) == JobsOf(Marked(owners, id, key))
    {
    }

    lemma OwnAttemptConflicts(e: Evidence, o: Owned)
      requires Faithful(e)
      ensures var next := OwnAttempt(o); next.conflicted == JobsOf(next.responses.marked) + JobsOf(next.receipts.marked)
    {
      hide Ledger.Follows, Ledger.Bound, Ledger.Shared, JobsOf, Marked;
      if o.response.Some? {
        var r := o.response.value;
        OwnersHaveBindings(e);
        SharedJobs(responses.last, r.providerResponseIdDigest, o.key);
        SharedJobs(receipts.last, r.hostResultReceiptId, o.key);
        JobsOfUnion(responses.marked, Marked(responses.last, r.providerResponseIdDigest, o.key));
        JobsOfUnion(receipts.marked, Marked(receipts.last, r.hostResultReceiptId, o.key));
      }
    }

    lemma OwnAttemptFaithful(e: Evidence, o: Owned)
      requires Faithful(e)
      requires forall p | p in e.owned :: p.key != o.key
      ensures OwnAttempt(o).Faithful(e.(owned := e.owned + {o}))
    {
      OwnAttemptFollows(e, o);
      OwnAttemptBound(e.owned, o);
      OwnAttemptConflicts(e, o);
    }

    lemma OwnAttemptBound(owned: set<Owned>, o: Owned)
      requires Bound(owned)
      requires forall p | p in owned :: p.key != o.key
      ensures OwnAttempt(o).Bound(owned + {o})
    {
    }

    lemma OwnProjectionFaithful(e: Evidence, projectionId: string, job: string)
      requires Faithful(e)
      ensures OwnProjection(projectionId, job).Faithful(e.(projections := e.projections + {(projectionId, job)}))
    {
      ObserveFollows(projections, e.projections, projectionId, job);
      SameOwned(e, e.(projections := e.projections + {(projectionId, job)}));
    }

    lemma InvalidateFaithful(e: Evidence, job: string)
      requires Faithful(e)
      ensures Invalidate(job).Faithful(e.(faulty := e.faulty + {job}))
    {
      SameOwned(e, e.(faulty := e.faulty + {job}));
    }

    lemma FaithfulInvalid(e: Evidence, job: string)
      requires Faithful(e)
      ensures Invalid(job) <==> job in e.Invalid()
    {
    }
  }

  lemma SameOwned(e: Evidence, next: Evidence)
    requires e.owned == next.owned
    ensures e.Calls() == next.Calls() && e.Responses() == next.Responses() && e.Receipts() == next.Receipts()
  {
  }

  lemma JobsOfUnion(a: set<Key>, b: set<Key>)
    ensures JobsOf(a + b) == JobsOf(a) + JobsOf(b)
  {
  }

  lemma EvidenceStep(e: Evidence, o: Owned)
    ensures var next := e.(owned := e.owned + {o});
            && next.Calls() == e.Calls() + {(o.key.call, o.key.job)}
            && if o.response.None? then next.Responses() == e.Responses() && next.Receipts() == e.Receipts()
               else && next.Responses() == e.Responses() + {(o.response.value.providerResponseIdDigest, o.key)}
                    && next.Receipts() == e.Receipts() + {(o.response.value.hostResultReceiptId, o.key)}
  {
  }

  // ---------------------------------------------------------------- reading the participants

  lemma OwnedAttemptsStep(f: Formats, id: string, attempts: seq<ModelAttempt>, n: nat)
    requires n < |attempts|
    ensures OwnedAttempts(f, id, attempts, n + 1) ==
            OwnedAttempts(f, id, attempts, n) + if OwnedAt(f, attempts, n) then {OwnedAttempt(f, id, attempts[n])}
                else {}
    ensures Faulty(f, attempts, n + 1) <==> Faulty(f, attempts, n) || FaultyAt(f, attempts, n)
  {
  }

  /** What has been read of one admitted participant after `n` attempts. */
  ghost function GainUpTo(f: Formats, e: Evidence, id: string, attempts: seq<ModelAttempt>, n: nat): Evidence
    requires n <= |attempts|
  {
    e.(faulty := e.faulty + (if Faulty(f, attempts, n) then {id} else {}),
       owned := e.owned + OwnedAttempts(f, id, attempts, n))
  }

  /** The keys of the identified attempts among the first `n`. */
  ghost predicate KeysSeen(f: Formats, id: string, attempts: seq<ModelAttempt>, n: nat, seen: set<Key>)
    requires n <= |attempts|
  {
    && (forall m | 0 <= m < n && AttemptIdentity(f, attempts[m]) ::
          Key(id, attempts[m].modelCallId, attempts[m].physicalAttempt) in seen)
    && (forall k | k in seen ::
          exists m :: 0 <= m < n && k == Key(id, attempts[m].modelCallId, attempts[m].physicalAttempt))
  }

  lemma KeysSeenStep(f: Formats, id: string, attempts: seq<ModelAttempt>, n: nat, seen: set<Key>)
    requires n < |attempts| && KeysSeen(f, id, attempts, n, seen)
    ensures var a := attempts[n];
            var key := Key(id, a.modelCallId, a.physicalAttempt);
            && (OwnedAt(f, attempts, n) <==> AttemptIdentity(f, a) && key !in seen)
            && KeysSeen(f, id, attempts, n + 1, if OwnedAt(f, attempts, n) then seen + {key} else seen)
  {
  }

  /** What one attempt adds to the evidence, and what the selector records. */
  ghost function Learn(f: Formats, e: Evidence, id: string, a: ModelAttempt, owned: bool): Evidence {
    var faulty := !owned || (a.originalResponse.Some? && !ValidResponse(f, a.originalResponse.value));
    e.(faulty := e.faulty + (if faulty then {id} else {}),
       owned := e.owned + (if owned then {OwnedAttempt(f, id, a)} else {}))
  }

  function Note(f: Formats, l: Ledger, id: string, a: ModelAttempt, owned: bool): Ledger {
    if !owned then l.Invalidate(id)
    else
      var next := l.OwnAttempt(OwnedAttempt(f, id, a));
      if a.originalResponse.Some? && !ValidResponse(f, a.originalResponse.value) then next.Invalidate(id) else next
  }

  lemma NoteFaithful(f: Formats, l: Ledger, e: Evidence, id: string, a: ModelAttempt, owned: bool)
    requires l.Faithful(e)
    requires owned ==> forall o | o in e.owned :: o.key != OwnedAttempt(f, id, a).key
    ensures Note(f, l, id, a, owned).Faithful(Learn(f, e, id, a, owned))
  {
    hide Ledger.Faithful;
    if !owned {
      l.InvalidateFaithful(e, id);
      assert Learn(f, e, id, a, owned) == e.(faulty := e.faulty + {id});
    } else {
      var o := OwnedAttempt(f, id, a);
      var next := e.(owned := e.owned + {o});
      l.OwnAttemptFaithful(e, o);
      l.OwnAttempt(o).InvalidateFaithful(next, id);
      assert next.faulty + {} == next.faulty;
    }
  }

  lemma GainStep(f: Formats, e: Evidence, id: string, attempts: seq<ModelAttempt>, n: nat)
    requires n < |attempts|
    ensures GainUpTo(f, e, id, attempts, n + 1)
            == Learn(f, GainUpTo(f, e, id, attempts, n), id, attempts[n], OwnedAt(f, attempts, n))
  {
    OwnedAttemptsStep(f, id, attempts, n);
  }

  lemma GainNothing(f: Formats, e: Evidence, id: string, attempts: seq<ModelAttempt>)
    ensures GainUpTo(f, e, id, attempts, 0) == e
    ensures KeysSeen(f, id, attempts, 0, {})
  {
  }

  lemma OwnedKeyFresh(f: Formats, e: Evidence, id: string, attempts: seq<ModelAttempt>, n: nat)
    requires n < |attempts| && OwnedAt(f, attempts, n)
    requires forall o | o in e.owned :: o.key.job != id
    ensures forall o | o in GainUpTo(f, e, id, attempts, n).owned :: o.key != OwnedAttempt(f, id, attempts[n]).key
  {
  }

  /** What the selector reports of one attempt. */
  function AttemptIssues(f: Formats, a: ModelAttempt, owned: bool): set<Issue> {
    if !owned then {InvalidAttempt}
    else
      (if a.outcome != Returned || a.originalResponse.None? then {AttemptUsageUnknown} else {})
      + (if a.originalResponse.Some?
          && !ValidResponse(f, a.originalResponse.value) then {InvalidOriginalResponse} else {})
  }

  lemma AttemptsReportedStep(f: Formats, attempts: seq<ModelAttempt>, n: nat, issues: set<Issue>)
    requires n < |attempts| && AttemptsReported(f, attempts, n, issues)
    ensures AttemptsReported(f, attempts, n + 1, issues + AttemptIssues(f, attempts[n], OwnedAt(f, attempts, n)))
  {
    hide OwnedAt, ValidResponse;
    var found := AttemptIssues(f, attempts[n], OwnedAt(f, attempts, n));
    assert forall i :: i in found <==> AttemptReported(f, attempts, n, i);
    hide AttemptReported, AttemptIssues;
  }

  method ReadAttempts(f: Formats, ledger: Ledger, ghost e: Evidence, id: string, attempts: seq<ModelAttempt>)
      returns (l: Ledger, issues: set<Issue>)
    requires ledger.Faithful(e)
    requires forall o | o in e.owned :: o.key.job != id
    ensures l.Faithful(GainUpTo(f, e, id, attempts, |attempts|))
    ensures AttemptsReported(f, attempts, |attempts|, issues)
  {
    hide Ledger.Faithful, KeysSeen, GainUpTo, Learn, AttemptReported, AttemptIssues;
    l, issues := ledger, {};
    var seen: set<Key> := {};
    ghost var g := e;
    GainNothing(f, e, id, attempts);
    for n := 0 to |attempts|
      invariant KeysSeen(f, id, attempts, n, seen)
      invariant g == GainUpTo(f, e, id, attempts, n)
      invariant l.Faithful(g)
      invariant AttemptsReported(f, attempts, n, issues)
    {
      var attempt := attempts[n];
      var key := Key(id, attempt.modelCallId, attempt.physicalAttempt);
      KeysSeenStep(f, id, attempts, n, seen);
      GainStep(f, e, id, attempts, n);
      AttemptsReportedStep(f, attempts, n, issues);
      var owned := AttemptIdentity(f, attempt) && key !in seen;
      if owned {
        OwnedKeyFresh(f, e, id, attempts, n);
        seen := seen + {key};
      }
      NoteFaithful(f, l, g, id, attempt, owned);
      g := Learn(f, g, id, attempt, owned);
      l, issues := Note(f, l, id, attempt, owned), issues + AttemptIssues(f, attempt, owned);
    }
  }

  ghost function NamedIds(f: Formats, jobs: seq<Participant>, n: nat): set<string>
    requires n <= |jobs|
  {
    set m | 0 <= m < n && Named(f, jobs[m]) :: jobs[m].usageJobId.value
  }

  lemma NamedIdsStep(f: Formats, jobs: seq<Participant>, n: nat)
    requires n < |jobs| && Named(f, jobs[n])
    ensures NamedIds(f, jobs, n + 1) == NamedIds(f, jobs, n) + {jobs[n].usageJobId.value}
    ensures jobs[n].usageJobId.value in NamedIds(f, jobs, n) <==> !FirstWithId(jobs, n)
  {
  }

  lemma AdmittedStep(f: Formats, jobs: seq<Participant>, n: nat, claims: set<string>, acceptedSources: set<string>)
    requires n < |jobs|
    ensures Admitted(f, jobs, n + 1, claims, acceptedSources) == Admitted(f, jobs, n, claims, acceptedSources) +
              if AdmittedAt(f, jobs, n, claims, acceptedSources) then {jobs[n]} else {}
    ensures Rejected(f, jobs, n + 1, claims, acceptedSources) == Rejected(f, jobs, n, claims, acceptedSources) +
              if Named(f, jobs[n]) && !AdmittedAt(f, jobs, n, claims, acceptedSources)
              then {jobs[n].usageJobId.value} else {}
  {
  }

  lemma EvidenceGain(f: Formats, admitted: set<Participant>, rejected: set<string>, job: Participant)
    requires job.usageJobId.Some?
    ensures EvidenceOf(f, admitted + {job}, rejected) == Gain(f, EvidenceOf(f, admitted, rejected), job)
  {
  }

  lemma JobEvidenceStep(f: Formats, jobs: seq<Participant>, n: nat, claims: set<string>, acceptedSources: set<string>)
    requires n < |jobs|
    ensures var before, after := JobEvidence(f, jobs, n, claims, acceptedSources),
    JobEvidence(f, jobs, n + 1, claims, acceptedSources);
            after == if !Named(f, jobs[n]) then before
                     else if AdmittedAt(f, jobs, n, claims, acceptedSources) then Gain(f, before, jobs[n])
                     else before.(faulty := before.faulty + {jobs[n].usageJobId.value})
  {
    hide Gain;
    AdmittedStep(f, jobs, n, claims, acceptedSources);
    var admitted, rejected := Admitted(f, jobs, n, claims, acceptedSources),
    Rejected(f, jobs, n, claims, acceptedSources);
    if Named(f, jobs[n]) && AdmittedAt(f, jobs, n, claims, acceptedSources) {
      assert rejected + {} == rejected;
      EvidenceGain(f, admitted, rejected, jobs[n]);
    } else {
      assert admitted + {} == admitted && rejected + {} == rejected;
    }
  }

  lemma OwnedByNamed(f: Formats, jobs: seq<Participant>, n: nat, claims: set<string>, acceptedSources: set<string>)
    requires n <= |jobs|
    ensures forall o | o in JobEvidence(f, jobs, n, claims, acceptedSources).owned ::
              o.key.job in NamedIds(f, jobs, n) && o.key.job in claims
  {
  }

  lemma GainComplete(f: Formats, e: Evidence, job: Participant)
    requires job.usageJobId.Some?
    ensures var id := job.usageJobId.value;
            Gain(f, e, job) == GainUpTo(f, e.(projections := e.projections + {(job.projectionId, id)}), id,
                                        job.attempts, |job.attempts|)
  {
  }

  lemma JobsReportedStep(f: Formats, jobs: seq<Participant>, n: nat, claims: set<string>, acceptedSources: set<string>,
      issues: set<Issue>, found: set<Issue>)
    requires n < |jobs| && JobsReported(f, jobs, n, claims, acceptedSources, issues)
    requires forall i :: i in found <==> Reported(f, jobs, n, claims, acceptedSources, i)
    ensures JobsReported(f, jobs, n + 1, claims, acceptedSources, issues + found)
  {
    hide Reported;
  }

  /** What the selector reports of one admitted participant besides its attempts. */
  function LifecycleIssues(job: Participant): set<Issue> {
    (if job.attempts == [] then {PhysicalInventoryUnknown} else {})
    + (if job.finishedAt.None? || job.startedAt.None? then {JobLifecycleUnknown} else {})
  }

  lemma AdmittedReported(f: Formats, jobs: seq<Participant>, n: nat, claims: set<string>, acceptedSources: set<string>,
      found: set<Issue>)
    requires n < |jobs| && AdmittedAt(f, jobs, n, claims, acceptedSources)
    requires AttemptsReported(f, jobs[n].attempts, |jobs[n].attempts|, found)
    ensures forall i :: i in found + LifecycleIssues(jobs[n]) <==> Reported(f, jobs, n, claims, acceptedSources, i)
  {
    hide AttemptReported, ParentProved, FirstWithId;
  }

  lemma RefusedReported(f: Formats, jobs: seq<Participant>, n: nat, claims: set<string>, acceptedSources: set<string>,
      i: Issue)
    requires n < |jobs| && !AdmittedAt(f, jobs, n, claims, acceptedSources)
    ensures Reported(f, jobs, n, claims, acceptedSources, i)
            <==> i == if jobs[n].usageJobId.None? then JobNotStarted
                      else if !f.jobId(jobs[n].usageJobId.value) then InvalidJobIdentity
                      else if !FirstWithId(jobs, n) then DuplicateJob
                      else UnprovedJobParent
  {
    hide ParentProved, FirstWithId;
  }

  /** The single pass over the participants, in list order. */
  method ReadJobs(f: Formats, jobs: seq<Participant>, claims: set<string>, acceptedSources: set<string>)
      returns (kept: set<string>, l: Ledger, issues: set<Issue>)
    ensures kept == NamedIds(f, jobs, |jobs|)
    ensures l.Faithful(JobEvidence(f, jobs, |jobs|, claims, acceptedSources))
    ensures JobsReported(f, jobs, |jobs|, claims, acceptedSources, issues)
  {
    hide Ledger.Faithful, JobEvidence, Gain, GainUpTo, NamedIds, ParentProved, FirstWithId, Reported, AttemptsReported,
    LifecycleIssues;
    kept := {};
    l := Ledger({}, Tracker(map[], {}), Tracker(map[], {}), Tracker(map[], {}), Tracker(map[], {}), map[], {});
    issues := {};
    NothingRead(f, jobs, claims, acceptedSources);
    for n := 0 to |jobs|
      invariant kept == NamedIds(f, jobs, n)
      invariant l.Faithful(JobEvidence(f, jobs, n, claims, acceptedSources))
      invariant JobsReported(f, jobs, n, claims, acceptedSources, issues)
    {
      var job := jobs[n];
      var found;
      kept, l, found := ReadJob(f, jobs, n, claims, acceptedSources, kept, l);
      JobsReportedStep(f, jobs, n, claims, acceptedSources, issues, found);
      issues := issues + found;
    }
  }

  method ReadJob(f: Formats, jobs: seq<Participant>, n: nat, claims: set<string>, acceptedSources: set<string>,
      earlier: set<string>, ledger: Ledger)
    returns (kept: set<string>, l: Ledger, found: set<Issue>)
    requires n < |jobs| && earlier == NamedIds(f, jobs, n)
    requires ledger.Faithful(JobEvidence(f, jobs, n, claims, acceptedSources))
    ensures kept == NamedIds(f, jobs, n + 1)
    ensures l.Faithful(JobEvidence(f, jobs, n + 1, claims, acceptedSources))
    ensures forall i :: i in found <==> Reported(f, jobs, n, claims, acceptedSources, i)
  {
    hide Ledger.Faithful, JobEvidence, Gain, GainUpTo, NamedIds, ParentProved, FirstWithId, Reported, AttemptsReported,
    LifecycleIssues;
    var job := jobs[n];
    ghost var e := JobEvidence(f, jobs, n, claims, acceptedSources);
    kept, l := earlier, ledger;
    JobEvidenceStep(f, jobs, n, claims, acceptedSources);
    if !AdmittedAt(f, jobs, n, claims, acceptedSources) {
      forall i {
        RefusedReported(f, jobs, n, claims, acceptedSources, i);
      }
    }
    if job.usageJobId.None? || !f.jobId(job.usageJobId.value) {
      NamedIdsSkip(f, jobs, n);
      found := {if job.usageJobId.None? then JobNotStarted else InvalidJobIdentity};
      return;
    }
    var id := job.usageJobId.value;
    NamedIdsStep(f, jobs, n);
    if id in kept {
      l.InvalidateFaithful(e, id);
      l, kept, found := l.Invalidate(id), kept + {id}, {DuplicateJob};
      return;
    }
    kept := kept + {id};
    if !ParentProved(f, job, claims, acceptedSources) {
      l.InvalidateFaithful(e, id);
      l, found := l.Invalidate(id), {UnprovedJobParent};
      return;
    }
    OwnedByNamed(f, jobs, n, claims, acceptedSources);
    GainComplete(f, e, job);
    l.OwnProjectionFaithful(e, job.projectionId, id);
    l := l.OwnProjection(job.projectionId, id);
    l, found := ReadAttempts(f, l, e.(projections := e.projections + {(job.projectionId, id)}), id, job.attempts);
    AdmittedReported(f, jobs, n, claims, acceptedSources, found);
    found := found + LifecycleIssues(job);
  }

  lemma NothingRead(f: Formats, jobs: seq<Participant>, claims: set<string>, acceptedSources: set<string>)
    ensures NamedIds(f, jobs, 0) == {}
    ensures Ledger({}, Tracker(map[], {}), Tracker(map[], {}), Tracker(map[], {}), Tracker(map[], {}), map[], {})
              .Faithful(JobEvidence(f, jobs, 0, claims, acceptedSources))
  {
  }

  lemma NamedIdsSkip(f: Formats, jobs: seq<Participant>, n: nat)
    requires n < |jobs| && !Named(f, jobs[n])
    ensures NamedIds(f, jobs, n + 1) == NamedIds(f, jobs, n)
  {
  }

  // ---------------------------------------------------------------- clashes

  /** Two owned attempts of different jobs name one model call. */
  ghost predicate SharesCall(o: Owned, p: Owned) {
    o.key.job != p.key.job && o.key.call == p.key.call
  }

  /** Two different owned attempts name one response, or one receipt. */
  ghost predicate SharesResponse(o: Owned, p: Owned) {
    && o.key != p.key && o.response.Some? && p.response.Some?
    && (o.response.value.providerResponseIdDigest == p.response.value.providerResponseIdDigest
        || o.response.value.hostResultReceiptId == p.response.value.hostResultReceiptId)
  }

  /** Two owned attempts that name one identity which only one may own. */
  ghost predicate Clash(o: Owned, p: Owned) {
    SharesCall(o, p) || SharesResponse(o, p)
  }

  ghost predicate SharesProjection(e: Evidence, job: string) {
    exists p, q :: p in e.projections && q in e.projections && p.0 == q.0 && p.1 == job && q.1 != job
  }

  ghost predicate Clashes(e: Evidence, job: string) {
    exists o, p :: o in e.owned && p in e.owned && o.key.job == job && Clash(o, p)
  }

  lemma ProjectionContested(e: Evidence, job: string)
    ensures job in ContestedOwners(e.projections) <==> SharesProjection(e, job)
  {
  }

  lemma SharedCallContested(e: Evidence, o: Owned, p: Owned)
    requires o in e.owned && p in e.owned
    ensures SharesCall(o, p) ==> o.key.job in ContestedOwners(e.Calls())
  {
    if SharesCall(o, p) {
      assert (p.key.call, p.key.job) in e.Calls();
      assert Contested(e.Calls(), (o.key.call, o.key.job));
    }
  }

  lemma SharedResponseContested(e: Evidence, o: Owned, p: Owned)
    requires o in e.owned && p in e.owned
    ensures SharesResponse(o, p) ==> o.key in ContestedOwners(e.Responses()) || o.key in ContestedOwners(e.Receipts())
  {
    if SharesResponse(o, p) {
      var r, q := o.response.value, p.response.value;
      if r.providerResponseIdDigest == q.providerResponseIdDigest {
        assert (q.providerResponseIdDigest, p.key) in e.Responses();
        assert Contested(e.Responses(), (r.providerResponseIdDigest, o.key));
      } else {
        assert (q.hostResultReceiptId, p.key) in e.Receipts();
        assert Contested(e.Receipts(), (r.hostResultReceiptId, o.key));
      }
    }
  }

  lemma ClashInvalidates(e: Evidence, o: Owned, p: Owned)
    requires o in e.owned && p in e.owned && Clash(o, p)
    ensures o.key.job in e.Invalid()
  {
    SharedCallContested(e, o, p);
    SharedResponseContested(e, o, p);
  }

  lemma CallClash(e: Evidence, job: string) returns (o: Owned, p: Owned)
    requires job in ContestedOwners(e.Calls())
    ensures o in e.owned && p in e.owned && o.key.job == job && SharesCall(o, p)
  {
    var c :| c in e.Calls() && Contested(e.Calls(), c) && c.1 == job;
    var d :| d in e.Calls() && d.0 == c.0 && d.1 != c.1;
    o :| o in e.owned && (o.key.call, o.key.job) == c;
    p :| p in e.owned && (p.key.call, p.key.job) == d;
  }

  lemma ResponseClash(e: Evidence, k: Key) returns (o: Owned, p: Owned)
    requires k in ContestedOwners(e.Responses())
    ensures o in e.owned && p in e.owned && o.key == k && SharesResponse(o, p)
  {
    var c :| c in e.Responses() && Contested(e.Responses(), c) && c.1 == k;
    var d :| d in e.Responses() && d.0 == c.0 && d.1 != c.1;
    o :| o in e.owned && o.response.Some? && (o.response.value.providerResponseIdDigest, o.key) == c;
    p :| p in e.owned && p.response.Some? && (p.response.value.providerResponseIdDigest, p.key) == d;
  }

  lemma ReceiptClash(e: Evidence, k: Key) returns (o: Owned, p: Owned)
    requires k in ContestedOwners(e.Receipts())
    ensures o in e.owned && p in e.owned && o.key == k && SharesResponse(o, p)
  {
    var c :| c in e.Receipts() && Contested(e.Receipts(), c) && c.1 == k;
    var d :| d in e.Receipts() && d.0 == c.0 && d.1 != c.1;
    o :| o in e.owned && o.response.Some? && (o.response.value.hostResultReceiptId, o.key) == c;
    p :| p in e.owned && p.response.Some? && (p.response.value.hostResultReceiptId, p.key) == d;
  }

  /** A job stays valid exactly when it is not faulty, no other job has its
      projection, and none of its attempts clashes with any other attempt. */
  lemma InvalidExactly(e: Evidence, job: string)
    ensures job in e.Invalid() <==> job in e.faulty || SharesProjection(e, job) || Clashes(e, job)
  {
    hide SharesCall, SharesResponse, Contested, ContestedOwners;
    ProjectionContested(e, job);
    if o, p :| o in e.owned && p in e.owned && o.key.job == job && Clash(o, p) {
      ClashInvalidates(e, o, p);
    }
    if job in ContestedOwners(e.Calls()) {
      var o, p := CallClash(e, job);
    }
    if k :| k in ContestedOwners(e.Responses()) && k.job == job {
      var o, p := ResponseClash(e, k);
    }
    if k :| k in ContestedOwners(e.Receipts()) && k.job == job {
      var o, p := ReceiptClash(e, k);
    }
  }

  /** Each kind of clash anywhere in the evidence is reported, and only then. */
  ghost predicate ConflictsReported(e: Evidence, issues: set<Issue>) {
    && (ConflictingJobOwner in issues <==> exists job :: SharesProjection(e, job))
    && (ConflictingModelCallOwner in issues <==> exists o, p :: o in e.owned && p in e.owned && SharesCall(o, p))
    && (ConflictingOriginalResponse in issues <==> exists o, p :: o in e.owned && p in e.owned && SharesResponse(o, p))
  }

  function ConflictIssues(l: Ledger): set<Issue> {
    (if l.projections.marked != {} then {ConflictingJobOwner} else {})
    + (if l.calls.marked != {} then {ConflictingModelCallOwner} else {})
    + (if l.responses.marked != {} || l.receipts.marked != {} then {ConflictingOriginalResponse} else {})
  }

  lemma MarksReported(l: Ledger, e: Evidence)
    requires l.Faithful(e)
    ensures ConflictsReported(e, ConflictIssues(l))
  {
    hide Contested, ContestedOwners, SharesProjection;
    forall job {
      ProjectionContested(e, job);
    }
    if job :| job in ContestedOwners(e.Calls()) {
      var o, p := CallClash(e, job);
    }
    if k :| k in ContestedOwners(e.Responses()) {
      var o, p := ResponseClash(e, k);
    }
    if k :| k in ContestedOwners(e.Receipts()) {
      var o, p := ReceiptClash(e, k);
    }
    forall o, p | o in e.owned && p in e.owned ensures SharesCall(o, p) ==> o.key.job in ContestedOwners(e.Calls()) {
      SharedCallContested(e, o, p);
    }
    forall o, p | o in e.owned && p in e.owned
      ensures SharesResponse(o, p) ==> o.key in ContestedOwners(e.Responses()) || o.key in ContestedOwners(e.Receipts())
    {
      SharedResponseContested(e, o, p);
    }
  }

  // ---------------------------------------------------------------- row selection

  lemma SharedResponseInvalid(e: Evidence, response: string, k: Key, m: Key)
    requires (response, k) in e.Responses() && (response, m) in e.Responses() && k != m
    ensures k.job in e.Invalid()
  {
  }

  /** Two answered attempts that match one row would share its response, and
      then both jobs would be invalid: at most one binding ever matches. */
  lemma ProofUnique(f: Formats, row: UsageRow, k: Key, m: Key, e: Evidence)
    requires Proves(f, row, k, e) && Proves(f, row, m, e)
    ensures k == m
  {
    if k != m {
      SharedResponseInvalid(e, f.sha256(row.responseId.value), k, m);
    }
  }

  function Matched(row: UsageRow, bindings: map<Key, Binding>, response: string): set<Key> {
    set k | k in bindings && bindings[k].job == row.source && Some(bindings[k].call) == row.Call()
        && bindings[k].response == response
  }

  lemma MatchedProves(f: Formats, row: UsageRow, l: Ledger, e: Evidence)
    requires l.Faithful(e) && WriterRow(f, row) && !l.Invalid(row.source)
    ensures forall k :: k in Matched(row, l.bindings, f.sha256(row.responseId.value)) <==> Proves(f, row, k, e)
    ensures forall k | k in Matched(row, l.bindings, f.sha256(row.responseId.value)) ::
              Matched(row, l.bindings, f.sha256(row.responseId.value)) == {k}
  {
    hide Evidence.Invalid, Ledger.Follows;
    var response := f.sha256(row.responseId.value);
    var matched := Matched(row, l.bindings, response);
    l.FaithfulInvalid(e, row.source);
    BindingsAreResponses(l, e);
    forall k, m | k in matched && m in matched ensures k == m {
      ProofUnique(f, row, k, m, e);
    }
  }

  lemma BindingsAreResponses(l: Ledger, e: Evidence)
    requires l.Faithful(e)
    ensures forall k | k in l.bindings :: l.bindings[k].job == k.job && l.bindings[k].call == k.call
    ensures forall k, d :: (d, k) in e.Responses() <==> k in l.bindings && l.bindings[k].response == d
  {
  }

  method MatchRow(f: Formats, row: UsageRow, l: Ledger, kept: set<string>, ghost e: Evidence) returns (key: Option<Key>)
    requires l.Faithful(e)
    requires forall k | k in l.bindings :: f.jobId(k.job) && k.job in kept
    ensures forall k :: Proves(f, row, k, e) <==> key == Some(k)
  {
    hide Ledger.Faithful, Evidence.Invalid, Ledger.Invalid;
    l.FaithfulInvalid(e, row.source);
    BindingsAreResponses(l, e);
    if !f.jobId(row.source) || l.Invalid(row.source) || row.source !in kept || !WriterRow(f, row) {
      return None;
    }
    var matched := Matched(row, l.bindings, f.sha256(row.responseId.value));
    MatchedProves(f, row, l, e);
    if |matched| != 1 {
      return None;
    }
    var k :| k in matched;
    return Some(k);
  }

  /** `matched` names, row by row, the answered attempt that the row proves. */
  ghost predicate MatchedRows(f: Formats, usage: seq<UsageRow>, matched: seq<Option<Key>>, e: Evidence) {
    && |matched| <= |usage|
    && forall i, k | 0 <= i < |matched| :: Proves(f, usage[i], k, e) <==> matched[i] == Some(k)
  }

  lemma MatchedRowsStep(f: Formats, usage: seq<UsageRow>, matched: seq<Option<Key>>, key: Option<Key>, e: Evidence)
    requires |matched| < |usage| && MatchedRows(f, usage, matched, e)
    requires forall k :: Proves(f, usage[|matched|], k, e) <==> key == Some(k)
    ensures MatchedRows(f, usage, matched + [key], e)
  {
    hide Proves;
  }

  /** One pass over the usage log. Rows outside the claimed jobs are ignored. */
  method CollectRows(f: Formats, usage: seq<UsageRow>, claims: set<string>, l: Ledger, kept: set<string>,
      ghost e: Evidence)
    returns (claimed: set<nat>, rowsByBinding: map<Key, seq<nat>>, ghost matched: seq<Option<Key>>)
    requires l.Faithful(e)
    requires forall k | k in l.bindings :: f.jobId(k.job) && k.job in kept
    requires forall o | o in e.owned :: o.key.job in claims
    ensures claimed == ClaimedRows(usage, claims)
    ensures |matched| == |usage| && MatchedRows(f, usage, matched, e) && Recorded(matched, rowsByBinding)
  {
    hide Ledger.Faithful, MatchedRows, Recorded, Proves;
    claimed, rowsByBinding, matched := {}, map[], [];
    NothingMatched(f, usage, e);
    for n := 0 to |usage|
      invariant claimed == set i: nat | i < n && usage[i].source in claims
      invariant |matched| == n && MatchedRows(f, usage, matched, e) && Recorded(matched, rowsByBinding)
    {
      var row := usage[n];
      var key := None;
      if row.source in claims {
        claimed := claimed + {n};
        key := MatchRow(f, row, l, kept, e);
      } else {
        UnclaimedRow(f, row, claims, e);
      }
      AddRowRecorded(matched, rowsByBinding, key);
      MatchedRowsStep(f, usage, matched, key, e);
      rowsByBinding, matched := AddRow(rowsByBinding, key, n), matched + [key];
    }
  }

  lemma NothingMatched(f: Formats, usage: seq<UsageRow>, e: Evidence)
    ensures MatchedRows(f, usage, [], e) && Recorded<Key>([], map[])
  {
  }

  lemma UnclaimedRow(f: Formats, row: UsageRow, claims: set<string>, e: Evidence)
    requires forall o | o in e.owned :: o.key.job in claims
    requires row.source !in claims
    ensures forall k :: !Proves(f, row, k, e)
  {
  }

  ghost predicate Unused(f: Formats, usage: seq<UsageRow>, k: Key, e: Evidence) {
    forall i | 0 <= i < |usage| :: !Proves(f, usage[i], k, e)
  }

  ghost predicate Duplicated(f: Formats, usage: seq<UsageRow>, k: Key, e: Evidence) {
    exists i, j :: 0 <= i < j < |usage| && Proves(f, usage[i], k, e) && Proves(f, usage[j], k, e)
  }

  /** The answered attempts of valid jobs. */
  ghost predicate Usable(k: Key, e: Evidence) {
    k.job !in e.Invalid() && exists d :: (d, k) in e.Responses()
  }

  lemma MatchedUsage(f: Formats, usage: seq<UsageRow>, matched: seq<Option<Key>>, k: Key, e: Evidence)
    requires |matched| == |usage| && MatchedRows(f, usage, matched, e)
    ensures Unmatched(matched, k) <==> Unused(f, usage, k, e)
    ensures MatchedTwice(matched, k) <==> Duplicated(f, usage, k, e)
    ensures forall i: nat | i < |usage| :: Sole(matched, i) && matched[i] == Some(k) <==> OnlyProof(f, usage, i, k, e)
  {
    hide Proves;
    assert forall i | 0 <= i < |usage| :: Proves(f, usage[i], k, e) <==> matched[i] == Some(k);
  }

  lemma MatchesMean(f: Formats, usage: seq<UsageRow>, matched: seq<Option<Key>>, e: Evidence, usable: set<Key>)
    requires |matched| == |usage| && MatchedRows(f, usage, matched, e)
    requires forall k :: k in usable <==> Usable(k, e)
    ensures SoleRows(matched, usable) == ExactRows(f, usage, e)
    ensures forall k :: Unmatched(matched, k) <==> Unused(f, usage, k, e)
    ensures forall k :: MatchedTwice(matched, k) <==> Duplicated(f, usage, k, e)
  {
    forall i: nat, k | i < |usage| && Proves(f, usage[i], k, e) ensures Usable(k, e) {
    }
    forall k {
      MatchedUsage(f, usage, matched, k, e);
    }
    hide Proves, Usable, Unmatched, MatchedTwice, Unused, Duplicated, MatchedRows, Sole;
    forall i: nat | i < |usage| ensures i in SoleRows(matched, usable) <==> ExactRow(f, usage, i, e) {
      if k :| OnlyProof(f, usage, i, k, e) {
        MatchedUsage(f, usage, matched, k, e);
        assert Proves(f, usage[i], k, e);
      }
    }
  }

  ghost function Claims(f: Formats, claimedJobIds: seq<string>): set<string> {
    set id | id in claimedJobIds && f.jobId(id)
  }

  method SelectProjectionUsage(f: Formats, jobs: seq<Participant>, claimedJobIds: seq<string>,
      acceptedSources: set<string>, usage: seq<UsageRow>)
    returns (exactIndices: seq<nat>, unprovenIndices: seq<nat>, issues: set<Issue>)
    ensures var e := JobEvidence(f, jobs, |jobs|, Claims(f, claimedJobIds), acceptedSources);
            var claimed := ClaimedRows(usage, Claims(f, claimedJobIds));
            && exactIndices == Ascending(ExactRows(f, usage, e), |usage|)
            && unprovenIndices == Ascending(claimed - ExactRows(f, usage, e), |usage|)
            && JobIssuesReported(f, jobs, Claims(f, claimedJobIds), acceptedSources, issues)
            && ConflictsReported(e, issues)
            && (UnprovedUsageRows in issues <==> unprovenIndices != [])
            && (DuplicateUsageResponse in issues <==> exists k :: Usable(k, e) && Duplicated(f, usage, k, e))
            && (ResponseUsageUnknown in issues <==> exists k :: Usable(k, e) && Unused(f, usage, k, e))
  {
    hide Ledger.Faithful, ExactRows, Usable, Duplicated, Unused, MatchedRows, SoleRows, MatchedTwice, Unmatched,
    Recorded, JobEvidence, Evidence.Invalid,
      JobsReported, JobIssuesReported, ConflictsReported;
    var claims := set id | id in claimedJobIds && f.jobId(id);
    var kept, l, jobIssues := ReadJobs(f, jobs, claims, acceptedSources);
    ghost var e := JobEvidence(f, jobs, |jobs|, claims, acceptedSources);
    OwnedByNamed(f, jobs, |jobs|, claims, acceptedSources);
    BoundByNamed(f, jobs, l, e);
    var claimed, rowsByBinding, matched := CollectRows(f, usage, claims, l, kept, e);
    var usable := set k | k in l.bindings && !l.Invalid(l.bindings[k].job);
    UsableBindings(l, e);
    MatchesMean(f, usage, matched, e, usable);
    var exact, unproven, duplicated, unused := Certify(usable, claimed, rowsByBinding, matched);
    exactIndices, unprovenIndices := Ascending(exact, |usage|), Ascending(unproven, |usage|);
    AscendingEmpty(unproven, |usage|);
    MarksReported(l, e);
    ReportsAreJobIssues(f, jobs, claims, acceptedSources, jobIssues);
    issues := AllIssues(jobIssues, ConflictIssues(l), duplicated != {}, unused != {}, unproven != {});
    AllIssuesReported(f, jobs, claims, acceptedSources, e, jobIssues, ConflictIssues(l), duplicated != {}, unused != {},
                      unproven != {});
  }

  function AllIssues(jobIssues: set<Issue>, conflicts: set<Issue>, duplicated: bool, unused: bool,
      unproven: bool): set<Issue> {
    jobIssues + conflicts
    + (if duplicated then {DuplicateUsageResponse} else {})
    + (if unused then {ResponseUsageUnknown} else {})
    + (if unproven then {UnprovedUsageRows} else {})
  }

  lemma ReportsAreJobIssues(f: Formats, jobs: seq<Participant>, claims: set<string>, acceptedSources: set<string>,
      issues: set<Issue>)
    requires JobsReported(f, jobs, |jobs|, claims, acceptedSources, issues)
    ensures forall i | i in issues :: i.JobIssue()
  {
    hide ParentProved, FirstWithId, OwnedAt, ValidResponse;
  }

  lemma AllIssuesReported(f: Formats, jobs: seq<Participant>, claims: set<string>, acceptedSources: set<string>,
      e: Evidence,
      jobIssues: set<Issue>, conflicts: set<Issue>, duplicated: bool, unused: bool, unproven: bool)
    requires JobsReported(f, jobs, |jobs|, claims, acceptedSources, jobIssues)
             && forall i | i in jobIssues :: i.JobIssue()
    requires ConflictsReported(e, conflicts)
    requires conflicts <= {ConflictingJobOwner, ConflictingModelCallOwner, ConflictingOriginalResponse}
    ensures var issues := AllIssues(jobIssues, conflicts, duplicated, unused, unproven);
            && JobIssuesReported(f, jobs, claims, acceptedSources, issues) && ConflictsReported(e, issues)
            && (DuplicateUsageResponse in issues <==> duplicated) && (ResponseUsageUnknown in issues <==> unused)
            && (UnprovedUsageRows in issues <==> unproven)
  {
    hide Reported, SharesProjection, SharesCall, SharesResponse;
    var issues := AllIssues(jobIssues, conflicts, duplicated, unused, unproven);
    assert forall i: Issue | i.JobIssue() :: i in issues <==> i in jobIssues;
  }

  lemma BoundByNamed(f: Formats, jobs: seq<Participant>, l: Ledger, e: Evidence)
    requires l.Faithful(e)
    requires forall o | o in e.owned :: o.key.job in NamedIds(f, jobs, |jobs|)
    ensures forall k | k in l.bindings :: f.jobId(k.job) && k.job in NamedIds(f, jobs, |jobs|)
  {
  }

  lemma UsableBindings(l: Ledger, e: Evidence)
    requires l.Faithful(e)
    ensures forall k :: k in l.bindings && !l.Invalid(l.bindings[k].job) <==> Usable(k, e)
  {
    hide Ledger.Faithful, Evidence.Invalid, Ledger.Invalid;
    BindingsAreResponses(l, e);
    forall k ensures k in l.bindings && !l.Invalid(l.bindings[k].job) <==> Usable(k, e) {
      l.FaithfulInvalid(e, k.job);
      if k in l.bindings {
        assert (l.bindings[k].response, k) in e.Responses();
      }
    }
  }

  // ---------------------------------------------------------------- what the selection guarantees

  /** No response is counted twice. */
  lemma ExactResponsesDistinct(f: Formats, usage: seq<UsageRow>, e: Evidence, i: nat, j: nat)
    requires i in ExactRows(f, usage, e) && j in ExactRows(f, usage, e) && i != j
    ensures usage[i].responseId.Some? && usage[j].responseId.Some?
    ensures f.sha256(usage[i].responseId.value) != f.sha256(usage[j].responseId.value)
  {
    var k :| OnlyProof(f, usage, i, k, e);
    var m :| OnlyProof(f, usage, j, m, e);
    assert k != m;
    if f.sha256(usage[i].responseId.value) == f.sha256(usage[j].responseId.value) {
      SharedResponseInvalid(e, f.sha256(usage[i].responseId.value), k, m);
    }
  }

  /** Every exact row is a claimed row, from its own job's namespace. */
  lemma ExactRowsAreClaimed(f: Formats, jobs: seq<Participant>, claims: set<string>, acceptedSources: set<string>,
      usage: seq<UsageRow>)
    ensures var e := JobEvidence(f, jobs, |jobs|, claims, acceptedSources);
            && ExactRows(f, usage, e) <= ClaimedRows(usage, claims)
            && forall i | i in ExactRows(f, usage, e) :: f.jobId(usage[i].source)
  {
  }

  ghost predicate DistinctIds(f: Formats, jobs: seq<Participant>) {
    forall m, n | 0 <= m < n < |jobs| && Named(f, jobs[m]) && Named(f, jobs[n]) ::
      jobs[m].usageJobId != jobs[n].usageJobId
  }

  lemma EvidenceOfDistinct(f: Formats, jobs: seq<Participant>, claims: set<string>, acceptedSources: set<string>)
    requires DistinctIds(f, jobs)
    ensures Admitted(f, jobs, |jobs|, claims, acceptedSources) ==
              set job | job in jobs && Named(f, job) && ParentProved(f, job, claims, acceptedSources)
    ensures Rejected(f, jobs, |jobs|, claims, acceptedSources) ==
              set job | job in jobs && Named(f, job) && !ParentProved(f, job, claims, acceptedSources) ::
                  job.usageJobId.value
  {
  }

  /** With distinct job ids the selection does not depend on the list order. */
  lemma SelectionIsOrderFree(f: Formats, jobs: seq<Participant>, permuted: seq<Participant>, claims: set<string>,
                             acceptedSources: set<string>, usage: seq<UsageRow>)
    requires multiset(jobs) == multiset(permuted) && DistinctIds(f, jobs)
    ensures JobEvidence(f, jobs, |jobs|, claims, acceptedSources)
            == JobEvidence(f, permuted, |permuted|, claims, acceptedSources)
    ensures ExactRows(f, usage, JobEvidence(f, jobs, |jobs|, claims, acceptedSources))
         == ExactRows(f, usage, JobEvidence(f, permuted, |permuted|, claims, acceptedSources))
  {
    PermutedStaysDistinct(f, jobs, permuted);
    EvidenceOfDistinct(f, jobs, claims, acceptedSources);
    EvidenceOfDistinct(f, permuted, claims, acceptedSources);
    forall job ensures job in jobs <==> job in permuted {
      assert job in jobs <==> job in multiset(jobs);
    }
    hide ParentProved, EvidenceOf, ExactRows, Named, DistinctIds;
    assert Admitted(f, jobs, |jobs|, claims, acceptedSources)
           == Admitted(f, permuted, |permuted|, claims, acceptedSources);
    assert Rejected(f, jobs, |jobs|, claims, acceptedSources)
           == Rejected(f, permuted, |permuted|, claims, acceptedSources);
  }

  lemma PermutedStaysDistinct(f: Formats, jobs: seq<Participant>, permuted: seq<Participant>)
    requires multiset(jobs) == multiset(permuted) && DistinctIds(f, jobs)
    ensures DistinctIds(f, permuted)
  {
    forall m, n | 0 <= m < n < |permuted| && Named(f, permuted[m]) && Named(f, permuted[n])
      ensures permuted[m].usageJobId != permuted[n].usageJobId
    {
      var x, y := permuted[m], permuted[n];
      assert x in multiset(jobs) && y in multiset(jobs);
      assert x in jobs && y in jobs;
      if x == y {
        assert permuted == permuted[..m] + [x] + permuted[m + 1..n] + [x] + permuted[n + 1..];
        assert multiset(permuted)[x] >= 2;
        SeveralOccurrences(jobs, x);
      }
    }
  }

  lemma {:induction false} SeveralOccurrences<T>(s: seq<T>, x: T)
    requires multiset(s)[x] >= 2
    ensures exists m, n :: 0 <= m < n < |s| && s[m] == s[n] == x
  {
    var init, last := s[..|s| - 1], s[|s| - 1];
    assert s == init + [last];
    if last == x {
      assert x in multiset(init);
      assert x in init;
    } else {
      SeveralOccurrences(init, x);
      var m, n :| 0 <= m < n < |init| && init[m] == init[n] == x;
      assert s[m] == s[n] == x;
    }
  }
}
