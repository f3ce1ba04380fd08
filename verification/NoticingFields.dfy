/** Which rows the noticing selection takes as exact, read off the participants'
    and the rows' own fields (scripts/lib/accepted-task-noticing-usage.ts). */
module NoticingFields {
  import opened Identifiers
  import opened NoticingUsage
  import opened Usage

  /** Participant `n` is the only one with its job id, and well formed throughout. */
  ghost predicate SoleValid(f: Formats, jobs: seq<Participant>, acceptedSources: set<string>, n: nat)
    requires n < |jobs|
  {
    var job := jobs[n];
    && f.jobId(job.usageJobId) && (forall m | 0 <= m < |jobs| && m != n :: jobs[m].usageJobId != job.usageJobId)
    && (job.operation == "noticing_proposal" || job.operation == "noticing_answer")
    && f.safeId(job.operationId) && f.digest(job.revisionDigest)
    && (exists source :: job.parentAcceptedSources == [source] && source in acceptedSources)
    && forall r | r in job.responseBindings ::
         && f.safeId(r.modelCallId) && f.digest(r.providerResponseIdDigest)
         && IsSafeInteger(r.physicalAttempt) && 0.0 < r.physicalAttempt
  }

  /** Another binding has the same response, or another job a call of this job. */
  ghost predicate Disputed(f: Formats, jobs: seq<Participant>, acceptedSources: set<string>, n: nat, r: Response)
    requires n < |jobs|
  {
    exists m, s :: Says(f, jobs, acceptedSources, m, s) && Rivals(jobs, m, s, n, r)
  }

  /** Valid participant `n` binds the response. */
  ghost predicate Says(f: Formats, jobs: seq<Participant>, acceptedSources: set<string>, n: int, r: Response) {
    0 <= n < |jobs| && SoleValid(f, jobs, acceptedSources, n) && r in jobs[n].responseBindings
  }

  ghost predicate Rivals(jobs: seq<Participant>, m: nat, s: Response, n: nat, r: Response)
    requires n < |jobs|
  {
    || (s.providerResponseIdDigest == r.providerResponseIdDigest && (m != n || s != r))
    || (m != n && exists q :: q in jobs[n].responseBindings && q.modelCallId == s.modelCallId)
  }

  /** The row names the job, the call and the response, and no other coordinate. */
  ghost predicate RowNames(f: Formats, row: UsageRow, job: Participant, r: Response) {
    && row.source == job.usageJobId
    && row.trace == Some(Trace(Some(r.modelCallId), None, None, None, false)) && f.safeId(r.modelCallId)
    && row.runId == None && row.stepId == None && row.itemKey == None
    && exists id :: row.responseId == Some(id) && f.safeId(id) && f.sha256(id) == r.providerResponseIdDigest
  }

  /** The one row that names an undisputed response of a valid participant. */
  ghost predicate SoleRow(f: Formats, jobs: seq<Participant>, acceptedSources: set<string>, usage: seq<UsageRow>,
      i: nat)
    requires i < |usage|
  {
    exists n, r ::
      && Says(f, jobs, acceptedSources, n, r)
      && !Disputed(f, jobs, acceptedSources, n, r) && RowNames(f, usage[i], jobs[n], r)
      && forall j | 0 <= j < |usage| && j != i :: !RowNames(f, usage[j], jobs[n], r)
  }

  lemma {:induction false} SoleOccurrence(jobs: seq<Participant>, n: nat)
    requires n < |jobs| && forall m | 0 <= m < |jobs| && m != n :: jobs[m] != jobs[n]
    ensures multiset(jobs)[jobs[n]] == 1
  {
    assert jobs == jobs[..n] + [jobs[n]] + jobs[n + 1..];
    assert jobs[n] !in jobs[..n] && jobs[n] !in jobs[n + 1..];
  }

  lemma OtherOccurrence(jobs: seq<Participant>, m: nat, n: nat)
    requires m < n < |jobs| && jobs[m] == jobs[n]
    ensures multiset(jobs)[jobs[n]] >= 2
  {
    assert jobs == jobs[..n] + [jobs[n]] + jobs[n + 1..];
    assert jobs[m] in jobs[..n];
  }

  /** The valid jobs are the sole valid participants. */
  lemma ValidIsSole(f: Formats, jobs: seq<Participant>, acceptedSources: set<string>, n: nat)
    requires n < |jobs|
    ensures jobs[n] in ValidJobs(f, jobs, acceptedSources) <==> SoleValid(f, jobs, acceptedSources, n)
  {
    if jobs[n] in ValidJobs(f, jobs, acceptedSources) {
      forall m | 0 <= m < |jobs| && m != n ensures jobs[m].usageJobId != jobs[n].usageJobId {
        if jobs[m].usageJobId == jobs[n].usageJobId {
          assert jobs[m] in jobs;
          OtherOccurrence(jobs, if m < n then m else n, if m < n then n else m);
        }
      }
      assert jobs[n].parentAcceptedSources == [jobs[n].parentAcceptedSources[0]];
    }
    if SoleValid(f, jobs, acceptedSources, n) {
      SoleOccurrence(jobs, n);
    }
  }

  function BindingOf(job: Participant, r: Response): Binding {
    Binding(job.usageJobId, r.modelCallId, r.physicalAttempt, r.providerResponseIdDigest)
  }

  /** The bindings are the responses of the sole valid participants, by field. */
  lemma BindingsAre(f: Formats, jobs: seq<Participant>, acceptedSources: set<string>, b: Binding)
    ensures b in JobEvidence(f, jobs, acceptedSources) <==>
              exists n: nat, r :: Says(f, jobs, acceptedSources, n, r) && b == BindingOf(jobs[n], r)
  {
    forall n | 0 <= n < |jobs| {
      ValidIsSole(f, jobs, acceptedSources, n);
    }
    hide FirstPhaseValid, SoleValid;
    if b in JobEvidence(f, jobs, acceptedSources) {
      var job, r :| job in ValidJobs(f, jobs, acceptedSources) && r in job.responseBindings && b == Key(job, r);
      var n :| 0 <= n < |jobs| && jobs[n] == job;
      assert Says(f, jobs, acceptedSources, n, r);
    }
    if n: nat, r :| Says(f, jobs, acceptedSources, n, r) && b == BindingOf(jobs[n], r) {
      assert b == Key(jobs[n], r);
    }
  }

  lemma BindingsDiffer(f: Formats, jobs: seq<Participant>, acceptedSources: set<string>, m: nat, s: Response, n: nat,
      r: Response)
    requires m < |jobs| && n < |jobs| && SoleValid(f, jobs, acceptedSources, n)
    ensures BindingOf(jobs[m], s) == BindingOf(jobs[n], r) <==> m == n && s == r
    ensures jobs[m].usageJobId == jobs[n].usageJobId <==> m == n
  {
  }

  lemma UsableIsUndisputed(f: Formats, jobs: seq<Participant>, acceptedSources: set<string>, n: nat, r: Response)
    requires Says(f, jobs, acceptedSources, n, r)
    ensures Usable(JobEvidence(f, jobs, acceptedSources), BindingOf(jobs[n], r))
            <==> !Disputed(f, jobs, acceptedSources, n, r)
  {
    var bindings, b := JobEvidence(f, jobs, acceptedSources), BindingOf(jobs[n], r);
    BindingsAre(f, jobs, acceptedSources, b);
    hide SoleValid, JobEvidence, Says;
    if SharesResponse(bindings, b) {
      SharedIsDisputed(f, jobs, acceptedSources, n, r);
    } else if JobSharesCall(bindings, b.job) {
      SharedCallIsDisputed(f, jobs, acceptedSources, n, r);
    }
    if Disputed(f, jobs, acceptedSources, n, r) {
      DisputedIsShared(f, jobs, acceptedSources, n, r);
    }
  }

  lemma SharedIsDisputed(f: Formats, jobs: seq<Participant>, acceptedSources: set<string>, n: nat, r: Response)
    requires Says(f, jobs, acceptedSources, n, r)
    requires SharesResponse(JobEvidence(f, jobs, acceptedSources), BindingOf(jobs[n], r))
    ensures Disputed(f, jobs, acceptedSources, n, r)
  {
    var bindings, b := JobEvidence(f, jobs, acceptedSources), BindingOf(jobs[n], r);
    var other :| other in bindings && other != b && other.response == b.response;
    BindingsAre(f, jobs, acceptedSources, other);
    var m: nat, s :| Says(f, jobs, acceptedSources, m, s) && other == BindingOf(jobs[m], s);
    assert Rivals(jobs, m, s, n, r);
    hide SoleValid;
  }

  lemma SharedCallIsDisputed(f: Formats, jobs: seq<Participant>, acceptedSources: set<string>, n: nat, r: Response)
    requires Says(f, jobs, acceptedSources, n, r)
    requires JobSharesCall(JobEvidence(f, jobs, acceptedSources), jobs[n].usageJobId)
    ensures Disputed(f, jobs, acceptedSources, n, r)
  {
    var bindings := JobEvidence(f, jobs, acceptedSources);
    var mine, other :| mine in bindings && other in bindings && mine.job == jobs[n].usageJobId
        && other.job != mine.job && mine.call == other.call;
    BindingsAre(f, jobs, acceptedSources, other);
    BindingsAre(f, jobs, acceptedSources, mine);
    var m: nat, s :| Says(f, jobs, acceptedSources, m, s) && other == BindingOf(jobs[m], s);
    var k: nat, q :| Says(f, jobs, acceptedSources, k, q) && mine == BindingOf(jobs[k], q);
    BindingsDiffer(f, jobs, acceptedSources, k, q, n, r);
    assert q in jobs[n].responseBindings && q.modelCallId == s.modelCallId;
    assert Rivals(jobs, m, s, n, r);
    hide SoleValid;
  }

  lemma DisputedIsShared(f: Formats, jobs: seq<Participant>, acceptedSources: set<string>, n: nat, r: Response)
    requires Says(f, jobs, acceptedSources, n, r) && Disputed(f, jobs, acceptedSources, n, r)
    ensures !Usable(JobEvidence(f, jobs, acceptedSources), BindingOf(jobs[n], r))
  {
    var bindings, b := JobEvidence(f, jobs, acceptedSources), BindingOf(jobs[n], r);
    var m: nat, s :| Says(f, jobs, acceptedSources, m, s) && Rivals(jobs, m, s, n, r);
    BindingsDiffer(f, jobs, acceptedSources, m, s, n, r);
    BindingsAre(f, jobs, acceptedSources, BindingOf(jobs[m], s));
    assert BindingOf(jobs[m], s) in bindings;
    if q :| m != n && q in jobs[n].responseBindings && q.modelCallId == s.modelCallId {
      BindingsAre(f, jobs, acceptedSources, BindingOf(jobs[n], q));
      assert BindingOf(jobs[n], q) in bindings;
    }
    hide SoleValid, JobEvidence;
  }

  lemma ProvesIsNames(f: Formats, row: UsageRow, job: Participant, r: Response, bindings: set<Binding>)
    requires Usable(bindings, BindingOf(job, r))
    ensures Proves(row, BindingOf(job, r), bindings, f) <==> RowNames(f, row, job, r)
  {
    hide Usable;
  }

  /** A row is exact if and only if it is the one row that names an undisputed
      response of a valid participant, all by their own fields. */
  lemma ExactRowsAreSole(f: Formats, jobs: seq<Participant>, acceptedSources: set<string>, usage: seq<UsageRow>, i: nat)
    ensures i in ExactRows(usage, JobEvidence(f, jobs, acceptedSources), f)
            <==> i < |usage| && SoleRow(f, jobs, acceptedSources, usage, i)
  {
    var bindings := JobEvidence(f, jobs, acceptedSources);
    hide SoleValid, JobEvidence, Usable, Disputed, RowNames;
    if i in ExactRows(usage, bindings, f) {
      var b :| OnlyProof(usage, i, b, bindings, f);
      BindingsAre(f, jobs, acceptedSources, b);
      assert b in bindings by {
        ProvedIsBound(usage[i], b, bindings, f);
      }
      var n: nat, r :| Says(f, jobs, acceptedSources, n, r) && b == BindingOf(jobs[n], r);
      UsableIsUndisputed(f, jobs, acceptedSources, n, r);
      forall row {
        ProvesIsNames(f, row, jobs[n], r, bindings);
      }
    }
    if i < |usage| && SoleRow(f, jobs, acceptedSources, usage, i) {
      var n, r :| && Says(f, jobs, acceptedSources, n, r)
          && !Disputed(f, jobs, acceptedSources, n, r) && RowNames(f, usage[i], jobs[n], r)
          && forall j | 0 <= j < |usage| && j != i :: !RowNames(f, usage[j], jobs[n], r);
      UsableIsUndisputed(f, jobs, acceptedSources, n, r);
      forall row {
        ProvesIsNames(f, row, jobs[n], r, bindings);
      }
      assert OnlyProof(usage, i, BindingOf(jobs[n], r), bindings, f);
    }
  }

  lemma ProvedIsBound(row: UsageRow, b: Binding, bindings: set<Binding>, f: Formats)
    requires Proves(row, b, bindings, f)
    ensures b in bindings && Usable(bindings, b)
  {
  }
}
