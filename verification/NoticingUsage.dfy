/** Selection of the usage rows that standalone noticing jobs caused
    (scripts/lib/accepted-task-noticing-usage.ts). */
module NoticingUsage {
  import opened Identifiers
  import opened Usage
  import opened LastOwner
  import opened RowJoin

  datatype Response = Response(modelCallId: string, physicalAttempt: real, providerResponseIdDigest: string)
  {
    predicate Valid(f: Formats) {
      && f.safeId(modelCallId) && f.digest(providerResponseIdDigest)
      && IsSafeInteger(physicalAttempt) && physicalAttempt > 0.0
    }
  }

  datatype Participant = Participant(
    usageJobId: string,
    operation: string,
    operationId: string,
    revisionDigest: string,
    parentAcceptedSources: seq<string>,
    responseBindings: seq<Response>)
  {
    predicate ParentProved(f: Formats, acceptedSources: set<string>) {
      && operation in {"noticing_proposal", "noticing_answer"}
      && f.safeId(operationId) && f.digest(revisionDigest)
      && |parentAcceptedSources| == 1 && parentAcceptedSources[0] in acceptedSources
    }
  }

  /** The key under which a job binds one provider response. */
  datatype Binding = Binding(job: string, call: string, attempt: real, response: string)

  datatype Issue =
    | InvalidJobIdentity
    | DuplicateJob(job: string)
    | UnprovedJobParent(job: string)
    | InvalidResponseBinding(job: string)
    | JobUsageUnknown(job: string)
    | ConflictingOriginalResponse
    | ConflictingModelCallOwner
    | DuplicateUsageResponse(job: string)
    | ResponseUsageUnknown(job: string)
    | UnprovedUsageRows
  {
    /** Issues about one participant, before any two are compared. */
    predicate JobIssue() {
      InvalidJobIdentity? || DuplicateJob? || UnprovedJobParent? || InvalidResponseBinding? || JobUsageUnknown?
    }
  }

  // ---------------------------------------------------------------- what the selection means

  /** A whole participant is acceptable evidence on its own: proved parent and
      well-formed responses. */
  ghost predicate WellFormed(f: Formats, job: Participant, acceptedSources: set<string>) {
    job.ParentProved(f, acceptedSources) && forall r | r in job.responseBindings :: r.Valid(f)
  }

  /** ... and it is the only participant with its job id. */
  ghost predicate FirstPhaseValid(f: Formats, jobs: seq<Participant>, acceptedSources: set<string>, job: Participant) {
    && f.jobId(job.usageJobId)
    && WellFormed(f, job, acceptedSources)
    && multiset(jobs)[job] == 1
    && forall other | other in jobs && other.usageJobId == job.usageJobId :: other == job
  }

  ghost function ValidJobs(f: Formats, jobs: seq<Participant>, acceptedSources: set<string>): set<Participant> {
    set job | job in jobs && FirstPhaseValid(f, jobs, acceptedSources, job)
  }

  ghost function Claims(f: Formats, jobs: seq<Participant>, claimedJobIds: seq<string>): set<string> {
    (set id | id in claimedJobIds && f.jobId(id)) +
    (set job | job in jobs && f.jobId(job.usageJobId) :: job.usageJobId)
  }

  /** What the first participant with its job id is reported for. */
  ghost predicate Complaint(f: Formats, job: Participant, acceptedSources: set<string>, i: Issue) {
    || (i == UnprovedJobParent(job.usageJobId) && !job.ParentProved(f, acceptedSources))
    || (i == InvalidResponseBinding(job.usageJobId) && exists r :: r in job.responseBindings && !r.Valid(f))
    || (i == JobUsageUnknown(job.usageJobId) && job.responseBindings == [])
  }

  /** Participant `n` is reported: for its identity, as a repetition, or for
      what it says itself. */
  ghost predicate Reported(f: Formats, jobs: seq<Participant>, n: nat, acceptedSources: set<string>, i: Issue)
    requires n < |jobs|
  {
    if !f.jobId(jobs[n].usageJobId) then i == InvalidJobIdentity
    else if exists m :: 0 <= m < n && jobs[m].usageJobId == jobs[n].usageJobId
    then i == DuplicateJob(jobs[n].usageJobId)
    else Complaint(f, jobs[n], acceptedSources, i)
  }

  /** The reports about the first `n` participants are exactly these. */
  ghost predicate JobsReported(f: Formats, jobs: seq<Participant>, n: nat, acceptedSources: set<string>,
      issues: set<Issue>)
    requires n <= |jobs|
  {
    forall i :: i in issues <==> exists m :: 0 <= m < n && Reported(f, jobs, m, acceptedSources, i)
  }

  lemma JobsReportedStep(f: Formats, jobs: seq<Participant>, n: nat, acceptedSources: set<string>, issues: set<Issue>,
      found: set<Issue>)
    requires n < |jobs| && JobsReported(f, jobs, n, acceptedSources, issues)
    requires forall i :: i in found <==> Reported(f, jobs, n, acceptedSources, i)
    ensures JobsReported(f, jobs, n + 1, acceptedSources, issues + found)
  {
    hide Reported;
  }

  /** The reports about participants, among all issues. */
  ghost predicate JobIssuesReported(f: Formats, jobs: seq<Participant>, acceptedSources: set<string>,
      issues: set<Issue>) {
    forall i: Issue | i.JobIssue() :: i in issues <==> exists m ::
                                                         0 <= m < |jobs| && Reported(f, jobs, m, acceptedSources, i)
  }

  function Key(job: Participant, r: Response): Binding {
    Binding(job.usageJobId, r.modelCallId, r.physicalAttempt, r.providerResponseIdDigest)
  }

  ghost function Bindings(valid: set<Participant>): set<Binding> {
    set job, r | job in valid && r in job.responseBindings :: Key(job, r)
  }

  /** Some other key binds the same provider response. */
  ghost predicate SharesResponse(bindings: set<Binding>, b: Binding) {
    exists other :: other in bindings && other != b && other.response == b.response
  }

  /** The job of `b` and another job both own some model call. */
  ghost predicate JobSharesCall(bindings: set<Binding>, job: string) {
    exists mine, other ::
      mine in bindings && other in bindings && mine.job == job && other.job != job && mine.call == other.call
  }

  ghost predicate Usable(bindings: set<Binding>, b: Binding) {
    b in bindings && !SharesResponse(bindings, b) && !JobSharesCall(bindings, b.job)
  }

  /** The row is possible spend of these jobs. */
  ghost predicate Related(f: Formats, row: UsageRow, claims: set<string>, bindings: set<Binding>) {
    row.source in claims
        || (row.Call().Some? && f.safeId(row.Call().value) && exists b :: b in bindings && b.call == row.Call().value)
  }

  /** The row carries exactly the identities of an uncontested binding. */
  ghost predicate Proves(row: UsageRow, b: Binding, bindings: set<Binding>, f: Formats) {
    && Usable(bindings, b)
    && row.Standalone(f)
    && row.source == b.job && row.Call() == Some(b.call) && f.sha256(row.responseId.value) == b.response
  }

  ghost predicate OnlyProof(usage: seq<UsageRow>, i: nat, b: Binding, bindings: set<Binding>, f: Formats)
    requires i < |usage|
  {
    && Proves(usage[i], b, bindings, f)
    && forall j | 0 <= j < |usage| && j != i :: !Proves(usage[j], b, bindings, f)
  }

  ghost predicate ExactRow(usage: seq<UsageRow>, i: nat, bindings: set<Binding>, f: Formats)
    requires i < |usage|
  {
    exists b :: OnlyProof(usage, i, b, bindings, f)
  }

  ghost function ExactRows(usage: seq<UsageRow>, bindings: set<Binding>, f: Formats): set<nat> {
    set i: nat | i < |usage| && ExactRow(usage, i, bindings, f)
  }

  ghost function RelatedRows(f: Formats, usage: seq<UsageRow>, claims: set<string>, bindings: set<Binding>): set<nat> {
    set i: nat | i < |usage| && Related(f, usage[i], claims, bindings)
  }

  // ---------------------------------------------------------------- first phase

  lemma ValidJobsStep(f: Formats, jobs: seq<Participant>, acceptedSources: set<string>, job: Participant)
    ensures var before, after := ValidJobs(f, jobs, acceptedSources), ValidJobs(f, jobs + [job], acceptedSources);
            if !f.jobId(job.usageJobId) then after == before
            else if exists o :: o in jobs && o.usageJobId == job.usageJobId
              then after == set o | o in before && o.usageJobId != job.usageJobId
            else after == before + if WellFormed(f, job, acceptedSources) then {job} else {}
  {
    var all := jobs + [job];
    assert multiset(all) == multiset(jobs) + multiset{job};
    assert forall o :: o in all <==> o in jobs || o == job;
    assert forall o :: o in jobs <==> multiset(jobs)[o] > 0;
    forall o | o in all && o.usageJobId != job.usageJobId
      ensures FirstPhaseValid(f, all, acceptedSources, o) <==> FirstPhaseValid(f, jobs, acceptedSources, o)
    {
      assert multiset(all)[o] == multiset(jobs)[o];
      if FirstPhaseValid(f, jobs, acceptedSources, o) {
        assert forall other | other in all && other.usageJobId == o.usageJobId :: other in jobs;
      }
    }
  }

  /** What the first phase knows after reading `jobs`. */
  ghost predicate FirstPhase(f: Formats, jobs: seq<Participant>, acceptedSources: set<string>,
      kept: map<string, Participant>, invalid: set<string>) {
    && (forall id | id in kept :: f.jobId(id) && kept[id].usageJobId == id && kept[id] in jobs)
    && (forall job | job in jobs && f.jobId(job.usageJobId) :: job.usageJobId in kept)
    && invalid <= kept.Keys
    && (forall id | id in kept :: id !in invalid <==> kept[id] in ValidJobs(f, jobs, acceptedSources))
  }

  lemma FirstPhaseIgnore(f: Formats, jobs: seq<Participant>, acceptedSources: set<string>,
      kept: map<string, Participant>, invalid: set<string>, job: Participant)
    requires FirstPhase(f, jobs, acceptedSources, kept, invalid) && !f.jobId(job.usageJobId)
    ensures FirstPhase(f, jobs + [job], acceptedSources, kept, invalid)
  {
  }

  lemma FirstPhaseDuplicate(f: Formats, jobs: seq<Participant>, acceptedSources: set<string>,
      kept: map<string, Participant>, invalid: set<string>, job: Participant)
    requires FirstPhase(f, jobs, acceptedSources, kept, invalid) && job.usageJobId in kept
    ensures FirstPhase(f, jobs + [job], acceptedSources, kept, invalid + {job.usageJobId})
  {
    ValidJobsStep(f, jobs, acceptedSources, job);
  }

  lemma FirstPhaseKeep(f: Formats, jobs: seq<Participant>, acceptedSources: set<string>,
      kept: map<string, Participant>, invalid: set<string>, job: Participant)
    requires FirstPhase(f, jobs, acceptedSources, kept, invalid) && f.jobId(job.usageJobId) && job.usageJobId !in kept
    ensures FirstPhase(f, jobs + [job], acceptedSources, kept[job.usageJobId := job],
                       invalid + if WellFormed(f, job, acceptedSources) then {} else {job.usageJobId})
  {
    ValidJobsStep(f, jobs, acceptedSources, job);
    forall o | o in ValidJobs(f, jobs, acceptedSources) ensures o.usageJobId in kept {
      assert o in jobs;
    }
  }

  lemma ClaimsStep(f: Formats, jobs: seq<Participant>, claimedJobIds: seq<string>, job: Participant)
    ensures Claims(f, jobs + [job], claimedJobIds) ==
            Claims(f, jobs, claimedJobIds) + if f.jobId(job.usageJobId) then {job.usageJobId} else {}
  {
  }

  /** Validate one participant by itself. */
  method CheckJob(f: Formats, job: Participant, acceptedSources: set<string>) returns (valid: bool, issues: set<Issue>)
    ensures valid <==> WellFormed(f, job, acceptedSources)
    ensures forall i :: i in issues <==> Complaint(f, job, acceptedSources, i)
  {
    var proved, invalidResponse := job.ParentProved(f, acceptedSources), false;
    for n := 0 to |job.responseBindings|
      invariant invalidResponse <==> exists m :: 0 <= m < n && !job.responseBindings[m].Valid(f)
    {
      if !job.responseBindings[n].Valid(f) {
        invalidResponse := true;
      }
    }
    hide Participant.ParentProved, Response.Valid;
    valid := proved && !invalidResponse;
    issues := (if proved then {} else {UnprovedJobParent(job.usageJobId)})
              + (if invalidResponse then {InvalidResponseBinding(job.usageJobId)} else {})
              + (if job.responseBindings == [] then {JobUsageUnknown(job.usageJobId)} else {});
  }

  method ReadJobs(f: Formats, jobs: seq<Participant>, claimedJobIds: seq<string>, acceptedSources: set<string>)
    returns (claims: set<string>, kept: map<string, Participant>, invalid: set<string>, issues: set<Issue>)
    ensures claims == Claims(f, jobs, claimedJobIds)
    ensures FirstPhase(f, jobs, acceptedSources, kept, invalid)
    ensures JobsReported(f, jobs, |jobs|, acceptedSources, issues)
  {
    hide Complaint;
    claims := set id | id in claimedJobIds && f.jobId(id);
    kept, invalid, issues := map[], {}, {};
    for n := 0 to |jobs|
      invariant claims == Claims(f, jobs[..n], claimedJobIds)
      invariant FirstPhase(f, jobs[..n], acceptedSources, kept, invalid)
      invariant JobsReported(f, jobs, n, acceptedSources, issues)
    {
      var job := jobs[n];
      var id := job.usageJobId;
      assert jobs[..n + 1] == jobs[..n] + [job];
      ClaimsStep(f, jobs[..n], claimedJobIds, job);
      if f.jobId(id) {
        KeptMeans(f, jobs, n, acceptedSources, kept, invalid);
      }
      var found;
      if !f.jobId(id) {
        FirstPhaseIgnore(f, jobs[..n], acceptedSources, kept, invalid, job);
        found := {InvalidJobIdentity};
      } else if id in kept {
        FirstPhaseDuplicate(f, jobs[..n], acceptedSources, kept, invalid, job);
        claims := claims + {id};
        invalid, found := invalid + {id}, {DuplicateJob(id)};
      } else {
        FirstPhaseKeep(f, jobs[..n], acceptedSources, kept, invalid, job);
        claims := claims + {id};
        kept := kept[id := job];
        var valid;
        valid, found := CheckJob(f, job, acceptedSources);
        if !valid {
          invalid := invalid + {id};
        }
      }
      JobsReportedStep(f, jobs, n, acceptedSources, issues, found);
      issues := issues + found;
    }
    assert jobs[..|jobs|] == jobs;
  }

  /** A job id is kept exactly when an earlier participant has it. */
  lemma KeptMeans(f: Formats, jobs: seq<Participant>, n: nat, acceptedSources: set<string>,
      kept: map<string, Participant>, invalid: set<string>)
    requires n < |jobs| && FirstPhase(f, jobs[..n], acceptedSources, kept, invalid) && f.jobId(jobs[n].usageJobId)
    ensures jobs[n].usageJobId in kept <==> exists m :: 0 <= m < n && jobs[m].usageJobId == jobs[n].usageJobId
  {
    hide ValidJobs;
    if m :| 0 <= m < n && jobs[m].usageJobId == jobs[n].usageJobId {
      assert jobs[..n][m] == jobs[m];
    }
  }

  // ---------------------------------------------------------------- second phase

  /** Which response key each provider response was seen under. */
  ghost function ResponseKeys(bindings: set<Binding>): set<(string, Binding)> {
    set b | b in bindings :: (b.response, b)
  }

  /** Which job each model call was seen under. */
  ghost function CallJobs(bindings: set<Binding>): set<(string, string)> {
    set b | b in bindings :: (b.call, b.job)
  }

  lemma ContestedResponses(bindings: set<Binding>)
    ensures ContestedOwners(ResponseKeys(bindings)) == set b | b in bindings && SharesResponse(bindings, b)
  {
    var seen := ResponseKeys(bindings);
    forall b | b in bindings ensures SharesResponse(bindings, b) <==> Contested(seen, (b.response, b)) {
      if SharesResponse(bindings, b) {
        var other :| other in bindings && other != b && other.response == b.response;
        assert (other.response, other) in seen;
      }
    }
    assert forall b | b in bindings :: (b.response, b) in seen;
  }

  lemma ContestedCalls(bindings: set<Binding>)
    ensures ContestedOwners(CallJobs(bindings)) == set b | b in bindings && JobSharesCall(bindings, b.job) :: b.job
  {
    var seen := CallJobs(bindings);
    forall job | job in ContestedOwners(seen)
      ensures exists b :: b in bindings && b.job == job && JobSharesCall(bindings, job) {
      var p :| p in seen && Contested(seen, p) && p.1 == job;
      var q :| q in seen && q.0 == p.0 && q.1 != p.1;
      var mine :| mine in bindings && (mine.call, mine.job) == p;
      var other :| other in bindings && (other.call, other.job) == q;
      assert JobSharesCall(bindings, job);
    }
    forall b | b in bindings && JobSharesCall(bindings, b.job) ensures b.job in ContestedOwners(seen) {
      var mine, other :| mine in bindings && other in bindings && mine.job == b.job && other.job != b.job
          && mine.call == other.call;
      assert (mine.call, mine.job) in seen && (other.call, other.job) in seen;
      assert Contested(seen, (mine.call, mine.job));
    }
  }

  /** The bindings of one job's first `n` responses. */
  ghost function JobBindings(job: Participant, n: nat): set<Binding>
    requires n <= |job.responseBindings|
  {
    set r | r in job.responseBindings[..n] :: Key(job, r)
  }

  lemma OwnersStep(bindings: set<Binding>, key: Binding)
    ensures ResponseKeys(bindings + {key}) == ResponseKeys(bindings) + {(key.response, key)}
    ensures CallJobs(bindings + {key}) == CallJobs(bindings) + {(key.call, key.job)}
  {
  }

  /** What the second phase has recorded about the bindings it has visited. The
      jobs invalid so far are `firstInvalid` and those that `calls` has marked. */
  datatype Ledger = Ledger(
    bindings: set<Binding>,
    digests: Tracker<string, Binding>,
    calls: Tracker<string, string>,
    firstInvalid: set<string>)
  {
    ghost predicate Faithful() {
      digests.Follows(ResponseKeys(bindings)) && calls.Follows(CallJobs(bindings))
    }

    predicate Invalid(job: string) {
      job in firstInvalid || job in calls.marked
    }

    /** Visit one more binding, comparing it with the last owners only. */
    function Record(key: Binding): Ledger {
      Ledger(bindings + {key}, digests.Observe(key.response, key), calls.Observe(key.call, key.job), firstInvalid)
    }

    lemma RecordFaithful(key: Binding)
      requires Faithful()
      ensures Record(key).Faithful()
    {
      OwnersStep(bindings, key);
      ObserveFollows(digests, ResponseKeys(bindings), key.response, key);
      ObserveFollows(calls, CallJobs(bindings), key.call, key.job);
    }

    /** The marks are exactly the shared responses and the jobs that share calls. */
    lemma FaithfulMarks()
      requires Faithful()
      ensures digests.marked == set b | b in bindings && SharesResponse(bindings, b)
      ensures calls.marked == set b | b in bindings && JobSharesCall(bindings, b.job) :: b.job
      ensures calls.last.Keys == set b | b in bindings :: b.call
    {
      ContestedResponses(bindings);
      ContestedCalls(bindings);
      forall call | call in calls.last ensures exists b :: b in bindings && b.call == call {
        assert (call, calls.last[call]) in CallJobs(bindings);
      }
      forall b | b in bindings ensures b.call in calls.last {
        assert (b.call, b.job) in CallJobs(bindings);
      }
    }

    /** The marks say which bindings are uncontested. */
    ghost predicate Settled() {
      && (forall b | b in bindings :: b !in digests.marked && !Invalid(b.job) <==> Usable(bindings, b))
      && (forall call :: call in calls.last <==> exists b :: b in bindings && b.call == call)
    }

    lemma FaithfulSettled()
      requires Faithful()
      requires forall b | b in bindings :: b.job !in firstInvalid
      ensures Settled()
    {
      FaithfulMarks();
    }
  }

  lemma JobBindingsStep(job: Participant, n: nat)
    requires n < |job.responseBindings|
    ensures JobBindings(job, n + 1) == JobBindings(job, n) + {Key(job, job.responseBindings[n])}
  {
  }

  method RecordJob(job: Participant, ledger: Ledger) returns (l: Ledger)
    requires ledger.Faithful()
    ensures l.Faithful() && l.firstInvalid == ledger.firstInvalid
    ensures l.bindings == ledger.bindings + Bindings({job})
  {
    l := ledger;
    for n := 0 to |job.responseBindings|
      invariant l.Faithful() && l.firstInvalid == ledger.firstInvalid
      invariant l.bindings == ledger.bindings + JobBindings(job, n)
    {
      var key := Key(job, job.responseBindings[n]);
      l.RecordFaithful(key);
      JobBindingsStep(job, n);
      l := l.Record(key);
    }
    assert job.responseBindings[..|job.responseBindings|] == job.responseBindings;
    assert Bindings({job}) == JobBindings(job, |job.responseBindings|);
  }

  ghost function Kept(kept: map<string, Participant>, except: set<string>): set<Participant> {
    set id | id in kept && id !in except :: kept[id]
  }

  /** Walk the valid jobs once, in any order, comparing each identity with its
      last recorded owner only. */
  method FindConflicts(kept: map<string, Participant>, firstInvalid: set<string>) returns (l: Ledger)
    requires forall id | id in kept :: kept[id].usageJobId == id
    ensures l.bindings == Bindings(Kept(kept, firstInvalid))
    ensures l.Faithful() && l.firstInvalid == firstInvalid
  {
    l := Ledger({}, Tracker(map[], {}), Tracker(map[], {}), firstInvalid);
    var todo := kept.Keys;
    while todo != {}
      invariant todo <= kept.Keys
      invariant l.bindings == Bindings(Kept(kept, firstInvalid + todo))
      invariant l.Faithful() && l.firstInvalid == firstInvalid
    {
      var id :| id in todo;
      assert l.Invalid(id) <==> id in firstInvalid by {
        l.FaithfulMarks();
      }
      ghost var before := Kept(kept, firstInvalid + todo);
      todo := todo - {id};
      assert Kept(kept, firstInvalid + todo) == before + if id in firstInvalid then {} else {kept[id]};
      if !l.Invalid(id) {
        assert Bindings(before + {kept[id]}) == Bindings(before) + Bindings({kept[id]});
        l := RecordJob(kept[id], l);
      }
    }
  }

  // ---------------------------------------------------------------- row selection

  /** At most one usable binding ever matches a row: two that did would differ
      only in their attempt, and so would share a response. */
  lemma ProofUnique(row: UsageRow, b: Binding, c: Binding, bindings: set<Binding>, f: Formats)
    requires Proves(row, b, bindings, f) && Proves(row, c, bindings, f)
    ensures b == c
  {
  }

  /** The bindings that the row's own identities select. */
  function Matching(row: UsageRow, l: Ledger, response: string): set<Binding> {
    set b | b in l.bindings && b.job == row.source && row.Call() == Some(b.call) && b.response == response
        && b !in l.digests.marked
  }

  lemma MatchingProves(row: UsageRow, l: Ledger, f: Formats)
    requires l.Settled() && row.Standalone(f) && !l.Invalid(row.source)
    ensures forall b :: b in Matching(row, l, f.sha256(row.responseId.value)) <==> Proves(row, b, l.bindings, f)
    ensures |Matching(row, l, f.sha256(row.responseId.value))| <= 1
  {
    var matching := Matching(row, l, f.sha256(row.responseId.value));
    forall b, c | b in matching && c in matching ensures b == c {
      ProofUnique(row, b, c, l.bindings, f);
    }
    if b :| b in matching {
      assert matching == {b};
    }
  }

  method MatchRow(row: UsageRow, l: Ledger, kept: set<string>, f: Formats) returns (key: Option<Binding>)
    requires l.Settled()
    requires forall b | b in l.bindings :: f.jobId(b.job) && b.job in kept
    ensures forall b :: Proves(row, b, l.bindings, f) <==> key == Some(b)
  {
    if !f.jobId(row.source) || l.Invalid(row.source) || row.source !in kept || !row.Standalone(f) {
      return None;
    }
    var matching := Matching(row, l, f.sha256(row.responseId.value));
    MatchingProves(row, l, f);
    if |matching| != 1 {
      return None;
    }
    var b :| b in matching;
    assert matching == {b};
    return Some(b);
  }

  /** `matched` names, row by row, the binding that the row proves. */
  ghost predicate MatchedRows(usage: seq<UsageRow>, matched: seq<Option<Binding>>, bindings: set<Binding>, f: Formats) {
    && |matched| <= |usage|
    && forall i, b | 0 <= i < |matched| :: Proves(usage[i], b, bindings, f) <==> matched[i] == Some(b)
  }

  lemma MatchedRowsStep(usage: seq<UsageRow>, matched: seq<Option<Binding>>, key: Option<Binding>,
      bindings: set<Binding>, f: Formats)
    requires |matched| < |usage| && MatchedRows(usage, matched, bindings, f)
    requires forall b :: Proves(usage[|matched|], b, bindings, f) <==> key == Some(b)
    ensures MatchedRows(usage, matched + [key], bindings, f)
  {
  }

  lemma RelatedRowsStep(f: Formats, usage: seq<UsageRow>, n: nat, claims: set<string>, bindings: set<Binding>)
    requires n < |usage|
    ensures RelatedRows(f, usage[..n + 1], claims, bindings) ==
            RelatedRows(f, usage[..n], claims, bindings) + if Related(f, usage[n], claims, bindings) then {n} else {}
  {
  }

  /** One pass over the usage log: the possible spend of these jobs, and the
      rows that prove each binding. */
  method CollectRows(usage: seq<UsageRow>, claims: set<string>, l: Ledger, kept: set<string>, f: Formats)
    returns (related: set<nat>, rowsByBinding: map<Binding, seq<nat>>, ghost matched: seq<Option<Binding>>)
    requires l.Settled()
    requires forall b | b in l.bindings :: f.jobId(b.job) && b.job in kept
    ensures related == RelatedRows(f, usage, claims, l.bindings)
    ensures |matched| == |usage| && MatchedRows(usage, matched, l.bindings, f) && Recorded(matched, rowsByBinding)
  {
    related, rowsByBinding, matched := {}, map[], [];
    for n := 0 to |usage|
      invariant related == RelatedRows(f, usage[..n], claims, l.bindings)
      invariant |matched| == n && MatchedRows(usage, matched, l.bindings, f) && Recorded(matched, rowsByBinding)
    {
      var row := usage[n];
      var call := row.Call();
      RelatedRowsStep(f, usage, n, claims, l.bindings);
      var key := None;
      if row.source in claims || (call.Some? && f.safeId(call.value) && call.value in l.calls.last) {
        related := related + {n};
        key := MatchRow(row, l, kept, f);
      }
      AddRowRecorded(matched, rowsByBinding, key);
      MatchedRowsStep(usage, matched, key, l.bindings, f);
      rowsByBinding, matched := AddRow(rowsByBinding, key, n), matched + [key];
    }
    assert usage[..|usage|] == usage;
  }

  ghost predicate Unused(usage: seq<UsageRow>, b: Binding, bindings: set<Binding>, f: Formats) {
    Usable(bindings, b) && forall i | 0 <= i < |usage| :: !Proves(usage[i], b, bindings, f)
  }

  ghost predicate Duplicated(usage: seq<UsageRow>, b: Binding, bindings: set<Binding>, f: Formats) {
    exists i, j :: 0 <= i < j < |usage| && Proves(usage[i], b, bindings, f) && Proves(usage[j], b, bindings, f)
  }

  /** The row-by-row matches carry exactly the selection's own notions. */
  lemma MatchesMean(usage: seq<UsageRow>, matched: seq<Option<Binding>>, bindings: set<Binding>, f: Formats,
      usable: set<Binding>)
    requires |matched| == |usage| && MatchedRows(usage, matched, bindings, f)
    requires usable == set b | b in bindings && Usable(bindings, b)
    ensures SoleRows(matched, usable) == ExactRows(usage, bindings, f)
    ensures forall b | b in usable :: Unmatched(matched, b) <==> Unused(usage, b, bindings, f)
    ensures forall b | b in usable :: MatchedTwice(matched, b) <==> Duplicated(usage, b, bindings, f)
  {
    forall i: nat | i < |usage| ensures i in SoleRows(matched, usable) <==> ExactRow(usage, i, bindings, f) {
      if i in SoleRows(matched, usable) {
        assert OnlyProof(usage, i, matched[i].value, bindings, f);
      }
      if b :| OnlyProof(usage, i, b, bindings, f) {
        assert Proves(usage[i], b, bindings, f);
        assert matched[i] == Some(b);
      }
    }
    forall b | b in usable ensures Unmatched(matched, b) <==> Unused(usage, b, bindings, f) {
      if i :| 0 <= i < |usage| && Proves(usage[i], b, bindings, f) {
        assert matched[i] == Some(b);
      }
    }
    forall b | b in usable ensures MatchedTwice(matched, b) <==> Duplicated(usage, b, bindings, f) {
      if i, j :| 0 <= i < j < |usage| && Proves(usage[i], b, bindings, f) && Proves(usage[j], b, bindings, f) {
        assert matched[i] == matched[j] == Some(b);
      }
      if i, j :| 0 <= i < j < |matched| && matched[i] == matched[j] == Some(b) {
        assert Proves(usage[i], b, bindings, f) && Proves(usage[j], b, bindings, f);
      }
    }
  }

  /** A shared response or call anywhere in the evidence is reported, and only then. */
  ghost predicate ConflictsReported(evidence: set<Binding>, issues: set<Issue>) {
    && (ConflictingOriginalResponse in issues <==> exists b :: b in evidence && SharesResponse(evidence, b))
    && (ConflictingModelCallOwner in issues <==> exists b :: b in evidence && JobSharesCall(evidence, b.job))
  }

  /** A job is reported exactly when one of its uncontested responses has
      several usage rows, or none. */
  ghost predicate RowIssuesReported(usage: seq<UsageRow>, evidence: set<Binding>, f: Formats, issues: set<Issue>) {
    && (forall job :: DuplicateUsageResponse(job) in issues <==>
          exists b :: b in evidence && b.job == job && Usable(evidence, b) && Duplicated(usage, b, evidence, f))
    && (forall job :: ResponseUsageUnknown(job) in issues <==>
          exists b :: b in evidence && b.job == job && Unused(usage, b, evidence, f))
  }

  /** Keep a row as exact when it is the one row its binding has. */
  method CertifyRows(usage: seq<UsageRow>, l: Ledger, related: set<nat>, rowsByBinding: map<Binding, seq<nat>>,
                     ghost matched: seq<Option<Binding>>, f: Formats)
    returns (exact: set<nat>, unproven: set<nat>, issues: set<Issue>)
    requires l.Settled()
    requires |matched| == |usage| && MatchedRows(usage, matched, l.bindings, f) && Recorded(matched, rowsByBinding)
    ensures exact == ExactRows(usage, l.bindings, f)
    ensures unproven == related - exact
    ensures forall i | i in issues :: i.DuplicateUsageResponse? || i.ResponseUsageUnknown?
    ensures RowIssuesReported(usage, l.bindings, f, issues)
  {
    var usable := set b | b in l.bindings && !l.Invalid(b.job) && b !in l.digests.marked;
    MatchesMean(usage, matched, l.bindings, f, usable);
    var duplicated, unused;
    exact, unproven, duplicated, unused := Certify(usable, related, rowsByBinding, matched);
    issues := (set b | b in duplicated :: DuplicateUsageResponse(b.job))
        + (set b | b in unused :: ResponseUsageUnknown(b.job));
  }

  // ---------------------------------------------------------------- the whole selection

  /** What the job list contributes: its uncontested participants' bindings. */
  ghost function JobEvidence(f: Formats, jobs: seq<Participant>, acceptedSources: set<string>): set<Binding> {
    Bindings(ValidJobs(f, jobs, acceptedSources))
  }

  method SelectNoticingUsage(f: Formats, jobs: seq<Participant>, claimedJobIds: seq<string>,
      acceptedSources: set<string>, usage: seq<UsageRow>)
    returns (exactIndices: seq<nat>, unprovenIndices: seq<nat>, issues: set<Issue>)
    ensures var evidence := JobEvidence(f, jobs, acceptedSources);
            var related := RelatedRows(f, usage, Claims(f, jobs, claimedJobIds), evidence);
            && exactIndices == Ascending(ExactRows(usage, evidence, f), |usage|)
            && unprovenIndices == Ascending(related - ExactRows(usage, evidence, f), |usage|)
            && ConflictsReported(evidence, issues)
            && RowIssuesReported(usage, evidence, f, issues)
            && JobIssuesReported(f, jobs, acceptedSources, issues)
            && (UnprovedUsageRows in issues <==> unprovenIndices != [])
  {
    var claims, kept, invalid, jobIssues := ReadJobs(f, jobs, claimedJobIds, acceptedSources);
    var l := FindConflicts(kept, invalid);
    KeptAreValid(f, jobs, acceptedSources, kept, invalid);
    l.FaithfulSettled();
    var related, rowsByBinding, matched := CollectRows(usage, claims, l, kept.Keys, f);
    var exact, unproven, rowIssues := CertifyRows(usage, l, related, rowsByBinding, matched, f);
    exactIndices, unprovenIndices := Ascending(exact, |usage|), Ascending(unproven, |usage|);
    AscendingEmpty(unproven, |usage|);
    issues := AllIssues(jobIssues, rowIssues, l.digests.marked != {}, l.calls.marked != {}, unproven != {});
    ReportsAreJobIssues(f, jobs, acceptedSources, jobIssues);
    AllIssuesReported(usage, f, l, jobIssues, rowIssues, unproven != {});
  }

  function AllIssues(jobIssues: set<Issue>, rowIssues: set<Issue>, responseConflict: bool, callConflict: bool,
      unprovenRows: bool): set<Issue> {
    jobIssues + rowIssues
    + (if responseConflict then {ConflictingOriginalResponse} else {})
    + (if callConflict then {ConflictingModelCallOwner} else {})
    + (if unprovenRows then {UnprovedUsageRows} else {})
  }

  lemma MarksReported(l: Ledger)
    requires l.Faithful()
    ensures l.digests.marked != {} <==> exists b :: b in l.bindings && SharesResponse(l.bindings, b)
    ensures l.calls.marked != {} <==> exists b :: b in l.bindings && JobSharesCall(l.bindings, b.job)
  {
    l.FaithfulMarks();
    if b :| b in l.bindings && SharesResponse(l.bindings, b) {
      assert b in l.digests.marked;
    }
    if b :| b in l.bindings && JobSharesCall(l.bindings, b.job) {
      assert b.job in l.calls.marked;
    }
  }

  lemma AllIssuesReported(usage: seq<UsageRow>, f: Formats, l: Ledger, jobIssues: set<Issue>, rowIssues: set<Issue>,
      unprovenRows: bool)
    requires l.Faithful()
    requires forall i | i in jobIssues :: i.JobIssue()
    requires forall i | i in rowIssues :: i.DuplicateUsageResponse? || i.ResponseUsageUnknown?
    requires RowIssuesReported(usage, l.bindings, f, rowIssues)
    ensures var issues := AllIssues(jobIssues, rowIssues, l.digests.marked != {}, l.calls.marked != {}, unprovenRows);
            && ConflictsReported(l.bindings, issues)
            && RowIssuesReported(usage, l.bindings, f, issues)
            && (UnprovedUsageRows in issues <==> unprovenRows)
            && forall i: Issue | i.JobIssue() :: i in issues <==> i in jobIssues
  {
    hide Ledger.Faithful, SharesResponse, JobSharesCall, Usable, Duplicated, Unused;
    MarksReported(l);
    var issues := AllIssues(jobIssues, rowIssues, l.digests.marked != {}, l.calls.marked != {}, unprovenRows);
    assert forall i: Issue ::
             i.DuplicateUsageResponse? || i.ResponseUsageUnknown? ==> (i in issues <==> i in rowIssues);
  }

  lemma ReportsAreJobIssues(f: Formats, jobs: seq<Participant>, acceptedSources: set<string>, issues: set<Issue>)
    requires JobsReported(f, jobs, |jobs|, acceptedSources, issues)
    ensures forall i | i in issues :: i.JobIssue()
  {
  }

  lemma KeptAreValid(f: Formats, jobs: seq<Participant>, acceptedSources: set<string>, kept: map<string, Participant>,
      invalid: set<string>)
    requires FirstPhase(f, jobs, acceptedSources, kept, invalid)
    ensures Kept(kept, invalid) == ValidJobs(f, jobs, acceptedSources)
    ensures forall b | b in Bindings(Kept(kept, invalid)) :: f.jobId(b.job) && b.job in kept && b.job !in invalid
  {
  }

  /** The selection does not depend on the order of the job list. */
  lemma SelectionIsOrderFree(f: Formats, jobs: seq<Participant>, permuted: seq<Participant>, claimedJobIds: seq<string>,
                             acceptedSources: set<string>, usage: seq<UsageRow>)
    requires multiset(jobs) == multiset(permuted)
    ensures JobEvidence(f, jobs, acceptedSources) == JobEvidence(f, permuted, acceptedSources)
    ensures Claims(f, jobs, claimedJobIds) == Claims(f, permuted, claimedJobIds)
    ensures ExactRows(usage, JobEvidence(f, jobs, acceptedSources), f)
            == ExactRows(usage, JobEvidence(f, permuted, acceptedSources), f)
    ensures RelatedRows(f, usage, Claims(f, jobs, claimedJobIds), JobEvidence(f, jobs, acceptedSources))
         == RelatedRows(f, usage, Claims(f, permuted, claimedJobIds), JobEvidence(f, permuted, acceptedSources))
  {
    assert forall job :: job in jobs <==> job in multiset(jobs);
    assert forall job :: job in permuted <==> job in multiset(permuted);
    assert ValidJobs(f, jobs, acceptedSources) == ValidJobs(f, permuted, acceptedSources);
    assert forall id :: id in Claims(f, jobs, claimedJobIds) <==> id in Claims(f, permuted, claimedJobIds);
  }

  /** No response is counted twice: two exact rows never carry one response. */
  lemma ExactResponsesDistinct(usage: seq<UsageRow>, bindings: set<Binding>, f: Formats, i: nat, j: nat)
    requires i in ExactRows(usage, bindings, f) && j in ExactRows(usage, bindings, f) && i != j
    ensures usage[i].responseId.Some? && usage[j].responseId.Some?
    ensures f.sha256(usage[i].responseId.value) != f.sha256(usage[j].responseId.value)
    ensures usage[i].responseId != usage[j].responseId
  {
  }

  /** Exact and unproven rows split the rows that are possible spend of the
      jobs, and an exact row always comes from its own job's namespace. */
  lemma SelectionPartitionsRelated(f: Formats, jobs: seq<Participant>, claimedJobIds: seq<string>,
      acceptedSources: set<string>, usage: seq<UsageRow>)
    ensures var evidence := JobEvidence(f, jobs, acceptedSources);
            var related := RelatedRows(f, usage, Claims(f, jobs, claimedJobIds), evidence);
            && ExactRows(usage, evidence, f) <= related
            && forall i | i in ExactRows(usage, evidence, f) :: f.jobId(usage[i].source)
  {
  }
}
