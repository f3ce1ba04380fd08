/** Which rows the approval-projection selection takes as exact, read off the
    participants', the attempts' and the rows' own fields
    (scripts/lib/accepted-task-approval-projection-usage.ts). */
module ProjectionFields {
  import opened Identifiers
  import opened ProjectionUsage
  import opened Usage

  /** The participants as read, with the ids and sources they may refer to. */
  datatype Input = Input(f: Formats, jobs: seq<Participant>, ids: seq<string>, acceptedSources: set<string>)
  {
    /** Participant `n` is the first with its job id, and its receipts place it
        after its accepted parent. */
    ghost predicate Placed(n: int) {
      && 0 <= n < |jobs|
      && var job := jobs[n];
      && (exists id :: job.usageJobId == Some(id) && id in ids && f.jobId(id))
      && (forall m | 0 <= m < n :: jobs[m].usageJobId != job.usageJobId)
      && job.operation == "approval_result_projection" && f.digest(job.revisionDigest)
      && job.projectionId == "approved-result:v1:" + job.revisionDigest
      && job.parentAcceptedSource in acceptedSources && f.safeId(job.executionAcceptedSource)
      && f.safeId(job.terminalEventId) && job.accountingQualified
      && exists session, p: nat, q: nat ::
           && ParseSource(job.parentAcceptedSource) == Some(Source(session, p))
           && ParseSource(job.executionAcceptedSource) == Some(Source(session, q))
           && p < q <= MAX_SAFE_INTEGER
    }

    /** Attempt `k` of placed participant `n` is identified, for the first time. */
    ghost predicate Owns(n: int, k: int) {
      && Placed(n) && 0 <= k < |jobs[n].attempts|
      && var a := jobs[n].attempts[k];
      && f.safeId(a.modelCallId) && IsSafeInteger(a.physicalAttempt) && 1.0 <= a.physicalAttempt
      && forall l | 0 <= l < k ::
           jobs[n].attempts[l].modelCallId != a.modelCallId || jobs[n].attempts[l].physicalAttempt != a.physicalAttempt
    }

    /** ... and it has this well-formed original response. */
    ghost predicate Answered(n: int, k: int, receipt: string, digest: string) {
      && Owns(n, k) && f.safeId(receipt) && f.digest(digest)
      && exists output :: jobs[n].attempts[k].originalResponse == Some(OriginalResponse(receipt, digest, output))
    }

    /** The participant is repeated, or one of its attempts is not in order. */
    ghost predicate Flawed(n: int) {
      && 0 <= n < |jobs|
      && ((exists m :: n < m < |jobs| && jobs[m].usageJobId == jobs[n].usageJobId)
          || exists k :: 0 <= k < |jobs[n].attempts|
                         && (!Owns(n, k) || (jobs[n].attempts[k].originalResponse.Some?
                                             && !exists receipt, digest :: Answered(n, k, receipt, digest))))
    }

    /** Two attempts name one model call in two jobs, or one response or receipt. */
    ghost predicate Rivals(n: int, k: int, m: int, l: int) {
      && Owns(n, k) && Owns(m, l)
      && ((n != m && jobs[n].attempts[k].modelCallId == jobs[m].attempts[l].modelCallId)
          || ((n != m || k != l)
              && exists r, d, s, e :: Answered(n, k, r, d) && Answered(m, l, s, e) && (r == s || d == e)))
    }

    /** Another participant has the projection, or a rival of some attempt. */
    ghost predicate Disputed(n: int) {
      || (exists m :: 0 <= n < |jobs| && Placed(m) && m != n && jobs[m].projectionId == jobs[n].projectionId)
      || exists k, m, l :: Rivals(n, k, m, l)
    }

    /** The row of the writer names the job, the call and the response, and no
        other coordinate. */
    ghost predicate RowNames(row: UsageRow, n: int, k: int, digest: string) {
      && Owns(n, k) && Some(row.source) == jobs[n].usageJobId && row.role == Some("writer")
      && row.channel == Some("writer:approval_result_projection")
      && row.trace == Some(Trace(Some(jobs[n].attempts[k].modelCallId), None, None, None, false))
      && row.runId == None && row.stepId == None && row.itemKey == None
      && exists id :: row.responseId == Some(id) && f.safeId(id) && f.sha256(id) == digest
    }

    /** The one row that names an answer of a participant without flaw or dispute. */
    ghost predicate SoleRow(usage: seq<UsageRow>, i: nat)
      requires i < |usage|
    {
      exists n, k, receipt, digest ::
        && Answered(n, k, receipt, digest) && !Flawed(n) && !Disputed(n) && RowNames(usage[i], n, k, digest)
        && forall j | 0 <= j < |usage| && j != i :: !RowNames(usage[j], n, k, digest)
    }

    ghost function Said(): Evidence {
      JobEvidence(f, jobs, |jobs|, Claims(f, ids), acceptedSources)
    }

    ghost function OwnedOf(n: int, k: int): Owned
      requires Owns(n, k)
    {
      Owned(Key(jobs[n].usageJobId.value, jobs[n].attempts[k].modelCallId, jobs[n].attempts[k].physicalAttempt),
            if exists receipt, digest :: Answered(n, k, receipt, digest) then jobs[n].attempts[k].originalResponse
            else None)
    }
  }

  // ---------------------------------------------------------------- the evidence, by field

  lemma PlacedIsAdmitted(x: Input, n: nat)
    requires n < |x.jobs|
    ensures x.Placed(n) <==> AdmittedAt(x.f, x.jobs, n, Claims(x.f, x.ids), x.acceptedSources)
  {
    var job := x.jobs[n];
    if AdmittedAt(x.f, x.jobs, n, Claims(x.f, x.ids), x.acceptedSources) {
      assert job.usageJobId == Some(job.usageJobId.value);
      var p, q := ParseSource(job.parentAcceptedSource).value, ParseSource(job.executionAcceptedSource).value;
      assert p == Source(p.sessionId, p.seqNo) && q == Source(p.sessionId, q.seqNo);
    }
    hide ParseSource;
  }

  lemma OwnsIsOwned(x: Input, n: nat, k: nat)
    requires x.Placed(n) && k < |x.jobs[n].attempts|
    ensures x.Owns(n, k) <==> OwnedAt(x.f, x.jobs[n].attempts, k)
    ensures x.Owns(n, k) ==> x.OwnedOf(n, k) == OwnedAttempt(x.f, x.jobs[n].usageJobId.value, x.jobs[n].attempts[k])
  {
    var a := x.jobs[n].attempts[k];
    hide Input.Placed;
    if x.Owns(n, k) && a.originalResponse.Some? && ValidResponse(x.f, a.originalResponse.value) {
      var r := a.originalResponse.value;
      assert a.originalResponse
          == Some(OriginalResponse(r.hostResultReceiptId, r.providerResponseIdDigest, r.responseOutputDigest));
      assert x.Answered(n, k, r.hostResultReceiptId, r.providerResponseIdDigest);
    }
  }

  lemma OwnedIs(x: Input, o: Owned)
    ensures o in x.Said().owned <==> exists n, k :: x.Owns(n, k) && o == x.OwnedOf(n, k)
  {
    var claims := Claims(x.f, x.ids);
    hide Input.Owns, Input.OwnedOf, Input.Placed, OwnedAt, OwnedAttempt, AdmittedAt, Claims;
    if o in x.Said().owned {
      var job :| job in Admitted(x.f, x.jobs, |x.jobs|, claims, x.acceptedSources) && job.usageJobId.Some?
          && o in OwnedAttempts(x.f, job.usageJobId.value, job.attempts, |job.attempts|);
      var n :| 0 <= n < |x.jobs| && AdmittedAt(x.f, x.jobs, n, claims, x.acceptedSources) && x.jobs[n] == job;
      var k :| 0 <= k < |job.attempts| && OwnedAt(x.f, job.attempts, k)
          && o == OwnedAttempt(x.f, job.usageJobId.value, job.attempts[k]);
      PlacedIsAdmitted(x, n);
      OwnsIsOwned(x, n, k);
    }
    if n, k :| x.Owns(n, k) && o == x.OwnedOf(n, k) {
      OwnedIsSaid(x, n, k);
    }
  }

  lemma OwnedIsSaid(x: Input, n: int, k: int)
    requires x.Owns(n, k)
    ensures x.OwnedOf(n, k) in x.Said().owned
  {
    var claims := Claims(x.f, x.ids);
    OwnsMeans(x, n, k);
    PlacedIsAdmitted(x, n);
    OwnsIsOwned(x, n, k);
    var job := x.jobs[n];
    hide Input.Owns, Input.OwnedOf, Input.Placed, OwnedAt, OwnedAttempt, AdmittedAt, Claims;
    assert job in Admitted(x.f, x.jobs, |x.jobs|, claims, x.acceptedSources);
    assert x.OwnedOf(n, k) in OwnedAttempts(x.f, job.usageJobId.value, job.attempts, |job.attempts|);
  }

  lemma OwnsMeans(x: Input, n: int, k: int)
    requires x.Owns(n, k)
    ensures x.Placed(n) && 0 <= n < |x.jobs| && 0 <= k < |x.jobs[n].attempts| && x.jobs[n].usageJobId.Some?
  {
  }

  lemma PlacedDiffer(x: Input, n: int, m: int)
    requires x.Placed(n) && x.Placed(m)
    ensures x.jobs[n].usageJobId == x.jobs[m].usageJobId <==> n == m
  {
  }

  lemma ProjectionsAre(x: Input, p: (string, string))
    ensures p in x.Said().projections <==>
              exists n :: x.Placed(n) && p == (x.jobs[n].projectionId, x.jobs[n].usageJobId.value)
  {
    var claims := Claims(x.f, x.ids);
    forall n | 0 <= n < |x.jobs| {
      PlacedIsAdmitted(x, n);
    }
    hide Input.Placed, AdmittedAt, Claims;
    if n :| x.Placed(n) && p == (x.jobs[n].projectionId, x.jobs[n].usageJobId.value) {
      PlacedMeans(x, n);
      assert x.jobs[n] in Admitted(x.f, x.jobs, |x.jobs|, claims, x.acceptedSources);
    }
  }

  lemma PlacedMeans(x: Input, n: int)
    requires x.Placed(n)
    ensures 0 <= n < |x.jobs| && x.jobs[n].usageJobId.Some?
  {
  }

  /** A placed participant is at fault exactly when it is flawed. */
  lemma FaultyIsFlawed(x: Input, n: nat)
    requires x.Placed(n)
    ensures x.jobs[n].usageJobId.value in x.Said().faulty <==> x.Flawed(n)
  {
    var job, claims := x.jobs[n], Claims(x.f, x.ids);
    PlacedIsAdmitted(x, n);
    RejectedIsRepeated(x, n);
    FaultyAttempts(x, n);
    forall other | other in Admitted(x.f, x.jobs, |x.jobs|, claims, x.acceptedSources)
        && other.usageJobId == job.usageJobId ensures other == job {
      var m :| 0 <= m < |x.jobs| && AdmittedAt(x.f, x.jobs, m, claims, x.acceptedSources) && x.jobs[m] == other;
    }
    hide AdmittedAt, Faulty, Rejected, Claims, Input.Placed, Input.Owns;
    assert job in Admitted(x.f, x.jobs, |x.jobs|, claims, x.acceptedSources);
  }

  lemma RejectedIsRepeated(x: Input, n: nat)
    requires x.Placed(n)
    ensures x.jobs[n].usageJobId.value in Rejected(x.f, x.jobs, |x.jobs|, Claims(x.f, x.ids), x.acceptedSources)
            <==> exists m :: n < m < |x.jobs| && x.jobs[m].usageJobId == x.jobs[n].usageJobId
  {
    PlacedIsAdmitted(x, n);
    hide ParentProved, Claims;
    if m :| n < m < |x.jobs| && x.jobs[m].usageJobId == x.jobs[n].usageJobId {
      assert !FirstWithId(x.jobs, m);
      assert Named(x.f, x.jobs[m]);
    }
  }

  lemma FaultyAttempts(x: Input, n: nat)
    requires x.Placed(n)
    ensures Faulty(x.f, x.jobs[n].attempts, |x.jobs[n].attempts|) <==>
              exists k :: 0 <= k < |x.jobs[n].attempts|
                          && (!x.Owns(n, k) || (x.jobs[n].attempts[k].originalResponse.Some?
                                                && !exists receipt, digest :: x.Answered(n, k, receipt, digest)))
  {
    var attempts := x.jobs[n].attempts;
    forall k | 0 <= k < |attempts| {
      OwnsIsOwned(x, n, k);
    }
    hide Input.Placed, OwnedAt, Input.Owns;
    forall k | 0 <= k < |attempts| ensures FaultyAt(x.f, attempts, k) <==>
        !x.Owns(n, k) || (attempts[k].originalResponse.Some?
                          && !exists receipt, digest :: x.Answered(n, k, receipt, digest)) {
      AnsweredIsValid(x, n, k);
    }
    hide FaultyAt, Input.Answered;
  }

  lemma AnsweredIsValid(x: Input, n: nat, k: nat)
    requires x.Placed(n) && k < |x.jobs[n].attempts|
    ensures var r := x.jobs[n].attempts[k].originalResponse;
            && (forall receipt, digest | x.Answered(n, k, receipt, digest) ::
                  r.Some? && ValidResponse(x.f, r.value)
                  && r.value.hostResultReceiptId == receipt && r.value.providerResponseIdDigest == digest)
            && (x.Owns(n, k) && r.Some? && ValidResponse(x.f, r.value) ==>
                  x.Answered(n, k, r.value.hostResultReceiptId, r.value.providerResponseIdDigest))
  {
    var r := x.jobs[n].attempts[k].originalResponse;
    hide Input.Placed, Input.Owns;
    if r.Some? {
      var v := r.value;
      assert r == Some(OriginalResponse(v.hostResultReceiptId, v.providerResponseIdDigest, v.responseOutputDigest));
    }
  }

  // ---------------------------------------------------------------- invalid jobs

  lemma OwnedFields(x: Input, n: int, k: int)
    requires x.Owns(n, k)
    ensures var o := x.OwnedOf(n, k);
            && Some(o.key.job) == x.jobs[n].usageJobId && o.key.call == x.jobs[n].attempts[k].modelCallId
            && (forall receipt, digest ::
                  x.Answered(n, k, receipt, digest) <==>
                    o.response.Some? && o.response.value.hostResultReceiptId == receipt
                    && o.response.value.providerResponseIdDigest == digest)
  {
    OwnsMeans(x, n, k);
    AnsweredIsValid(x, n, k);
    hide Input.Placed, Input.Owns, Input.Answered;
  }

  lemma OwnedDiffer(x: Input, n: int, k: int, m: int, l: int)
    requires x.Owns(n, k) && x.Owns(m, l)
    ensures x.OwnedOf(n, k).key.job == x.OwnedOf(m, l).key.job <==> n == m
    ensures x.OwnedOf(n, k).key == x.OwnedOf(m, l).key <==> n == m && k == l
  {
    OwnsMeans(x, n, k);
    OwnsMeans(x, m, l);
    PlacedDiffer(x, n, m);
    hide Input.Placed;
  }

  lemma RivalsClash(x: Input, n: int, k: int, m: int, l: int)
    requires x.Owns(n, k) && x.Owns(m, l)
    ensures x.Rivals(n, k, m, l) <==> Clash(x.OwnedOf(n, k), x.OwnedOf(m, l))
  {
    OwnedFields(x, n, k);
    OwnedFields(x, m, l);
    OwnedDiffer(x, n, k, m, l);
    hide Input.Owns, Input.OwnedOf, Input.Answered;
    var o, p := x.OwnedOf(n, k), x.OwnedOf(m, l);
    if SharesResponse(o, p) {
      var r, s := o.response.value, p.response.value;
      assert x.Answered(n, k, r.hostResultReceiptId, r.providerResponseIdDigest)
          && x.Answered(m, l, s.hostResultReceiptId, s.providerResponseIdDigest);
    }
  }

  lemma DisputedIs(x: Input, n: int)
    requires x.Placed(n)
    ensures x.Disputed(n) <==>
              SharesProjection(x.Said(), x.jobs[n].usageJobId.value) || Clashes(x.Said(), x.jobs[n].usageJobId.value)
  {
    var e, id := x.Said(), x.jobs[n].usageJobId.value;
    hide Clash, Input.Rivals, Input.Placed, Input.Owns, Input.OwnedOf, Input.Said, SharesProjection, Clashes;
    if SharesProjection(e, id) {
      ProjectionShared(x, n);
    }
    if Clashes(e, id) {
      ClashIsRival(x, n);
    }
    if m :| x.Placed(m) && m != n && x.jobs[m].projectionId == x.jobs[n].projectionId {
      SharedProjection(x, n, m);
    }
    if k, m, l :| x.Rivals(n, k, m, l) {
      RivalIsClash(x, n, k, m, l);
    }
  }

  lemma ClashIsRival(x: Input, n: int)
    requires x.Placed(n) && Clashes(x.Said(), x.jobs[n].usageJobId.value)
    ensures exists k, m, l :: x.Rivals(n, k, m, l)
  {
    var e, id := x.Said(), x.jobs[n].usageJobId.value;
    var o, p :| o in e.owned && p in e.owned && o.key.job == id && Clash(o, p);
    OwnedIs(x, o);
    OwnedIs(x, p);
    var at, k :| x.Owns(at, k) && o == x.OwnedOf(at, k);
    var m, l :| x.Owns(m, l) && p == x.OwnedOf(m, l);
    OwnsMeans(x, at, k);
    OwnedFields(x, at, k);
    PlacedDiffer(x, at, n);
    RivalsClash(x, at, k, m, l);
    PlacedMeans(x, n);
    hide Clash, Input.Rivals, Input.Placed, Input.Owns, Input.OwnedOf, Input.Said, Input.Answered;
  }

  lemma RivalIsClash(x: Input, n: int, k: int, m: int, l: int)
    requires x.Placed(n) && x.Rivals(n, k, m, l)
    ensures Clashes(x.Said(), x.jobs[n].usageJobId.value)
  {
    RivalsOwn(x, n, k, m, l);
    RivalsClash(x, n, k, m, l);
    OwnedIsSaid(x, n, k);
    OwnedIsSaid(x, m, l);
    OwnedFields(x, n, k);
    PlacedMeans(x, n);
    hide Clash, Input.Rivals, Input.Placed, Input.Owns, Input.OwnedOf, Input.Said, Input.Answered;
  }

  lemma RivalsOwn(x: Input, n: int, k: int, m: int, l: int)
    requires x.Rivals(n, k, m, l)
    ensures x.Owns(n, k) && x.Owns(m, l)
  {
  }

  lemma ProjectionShared(x: Input, n: int)
    requires x.Placed(n) && SharesProjection(x.Said(), x.jobs[n].usageJobId.value)
    ensures exists m :: x.Placed(m) && m != n && x.jobs[m].projectionId == x.jobs[n].projectionId
  {
    var e, id := x.Said(), x.jobs[n].usageJobId.value;
    var p, q :| p in e.projections && q in e.projections && p.0 == q.0 && p.1 == id && q.1 != id;
    ProjectionsAre(x, p);
    ProjectionsAre(x, q);
    var k :| x.Placed(k) && p == (x.jobs[k].projectionId, x.jobs[k].usageJobId.value);
    var m :| x.Placed(m) && q == (x.jobs[m].projectionId, x.jobs[m].usageJobId.value);
    PlacedMeans(x, k);
    PlacedMeans(x, n);
    PlacedDiffer(x, k, n);
    hide Input.Placed, Input.Said;
  }

  lemma SharedProjection(x: Input, n: int, m: int)
    requires x.Placed(n) && x.Placed(m) && m != n && x.jobs[m].projectionId == x.jobs[n].projectionId
    ensures SharesProjection(x.Said(), x.jobs[n].usageJobId.value)
  {
    var p := (x.jobs[n].projectionId, x.jobs[n].usageJobId.value);
    var q := (x.jobs[m].projectionId, x.jobs[m].usageJobId.value);
    ProjectionsAre(x, p);
    ProjectionsAre(x, q);
    PlacedMeans(x, m);
    PlacedMeans(x, n);
    PlacedDiffer(x, n, m);
    hide Input.Placed, Input.Said;
    assert p in x.Said().projections && q in x.Said().projections;
  }

  // ---------------------------------------------------------------- exact rows

  /** A placed participant's job is invalid exactly when it is flawed or disputed. */
  lemma InvalidIs(x: Input, n: int)
    requires x.Placed(n)
    ensures x.jobs[n].usageJobId.value in x.Said().Invalid() <==> x.Flawed(n) || x.Disputed(n)
  {
    InvalidExactly(x.Said(), x.jobs[n].usageJobId.value);
    FaultyIsFlawed(x, n);
    DisputedIs(x, n);
    hide Input.Placed, Input.Flawed, Input.Disputed, Input.Said, Evidence.Invalid, SharesProjection, Clashes;
  }

  lemma RowNamesIs(x: Input, row: UsageRow, n: int, k: int, receipt: string, digest: string)
    requires x.Answered(n, k, receipt, digest) && !x.Flawed(n) && !x.Disputed(n)
    ensures Proves(x.f, row, x.OwnedOf(n, k).key, x.Said()) <==> x.RowNames(row, n, k, digest)
  {
    OwnsMeans(x, n, k);
    InvalidIs(x, n);
    OwnedIsSaid(x, n, k);
    OwnedFields(x, n, k);
    ResponsesOfKey(x, n, k, receipt, digest);
    RowCarries(x, row, n, k, digest);
    hide Input.Flawed, Input.Disputed, Input.Said, Evidence.Invalid, Evidence.Responses, Input.Answered, Input.OwnedOf,
    Input.RowNames, WriterRow, Input.Owns, Input.Placed;
  }

  lemma ResponsesOfKey(x: Input, n: int, k: int, receipt: string, digest: string)
    requires x.Answered(n, k, receipt, digest)
    ensures forall d :: (d, x.OwnedOf(n, k).key) in x.Said().Responses() <==> d == digest
  {
    OwnedIsSaid(x, n, k);
    OwnedFields(x, n, k);
    var own := x.OwnedOf(n, k);
    forall o | o in x.Said().owned && o.key == own.key ensures o == own {
      SameKeySaid(x, n, k, o);
    }
    hide Input.Said, Input.Answered, Input.OwnedOf, Input.Owns;
  }

  lemma SameKeySaid(x: Input, n: int, k: int, o: Owned)
    requires x.Owns(n, k) && o in x.Said().owned && o.key == x.OwnedOf(n, k).key
    ensures o == x.OwnedOf(n, k)
  {
    OwnedIs(x, o);
    var m, l :| x.Owns(m, l) && o == x.OwnedOf(m, l);
    OwnedDiffer(x, n, k, m, l);
  }

  lemma RowCarries(x: Input, row: UsageRow, n: int, k: int, digest: string)
    requires x.Owns(n, k)
    ensures x.RowNames(row, n, k, digest) <==>
              && WriterRow(x.f, row) && Some(row.source) == x.jobs[n].usageJobId
              && row.Call() == Some(x.jobs[n].attempts[k].modelCallId) && x.f.sha256(row.responseId.value) == digest
  {
    hide Input.Placed;
  }

  /** A row is exact if and only if it is the one row that names an answer of a
      participant without flaw or dispute, all by their own fields. */
  lemma ExactRowsAreSole(x: Input, usage: seq<UsageRow>, i: nat)
    ensures i in ExactRows(x.f, usage, x.Said()) <==> i < |usage| && x.SoleRow(usage, i)
  {
    hide Input.Flawed, Input.Disputed, Input.Said, Input.Answered, Input.OwnedOf, Input.RowNames, Input.Owns, Proves;
    if i in ExactRows(x.f, usage, x.Said()) {
      var key :| OnlyProof(x.f, usage, i, key, x.Said());
      var n, k, receipt, digest := ProvenAnswer(x, usage[i], key);
      forall row {
        RowNamesIs(x, row, n, k, receipt, digest);
      }
    }
    if i < |usage| && x.SoleRow(usage, i) {
      var n, k, receipt, digest :|
        && x.Answered(n, k, receipt, digest) && !x.Flawed(n) && !x.Disputed(n) && x.RowNames(usage[i], n, k, digest)
        && forall j | 0 <= j < |usage| && j != i :: !x.RowNames(usage[j], n, k, digest);
      AnswerIsOwned(x, n, k, receipt, digest);
      forall row {
        RowNamesIs(x, row, n, k, receipt, digest);
      }
      assert OnlyProof(x.f, usage, i, x.OwnedOf(n, k).key, x.Said());
    }
  }

  lemma AnswerIsOwned(x: Input, n: int, k: int, receipt: string, digest: string)
    requires x.Answered(n, k, receipt, digest)
    ensures x.Owns(n, k)
  {
  }

  lemma ProvenAnswer(x: Input, row: UsageRow, key: Key)
    returns (n: int, k: int, receipt: string, digest: string)
    requires Proves(x.f, row, key, x.Said())
    ensures x.Answered(n, k, receipt, digest) && !x.Flawed(n) && !x.Disputed(n) && key == x.OwnedOf(n, k).key
  {
    var o := ProvenOwned(x, row, key);
    OwnedIs(x, o);
    n, k :| x.Owns(n, k) && o == x.OwnedOf(n, k);
    receipt, digest := o.response.value.hostResultReceiptId, o.response.value.providerResponseIdDigest;
    OwnsMeans(x, n, k);
    OwnedFields(x, n, k);
    InvalidIs(x, n);
    hide Input.Flawed, Input.Disputed, Input.Said, Evidence.Invalid, Input.Answered, Input.OwnedOf, Input.Owns, Proves,
    Input.Placed;
  }

  lemma ProvenOwned(x: Input, row: UsageRow, key: Key) returns (o: Owned)
    requires Proves(x.f, row, key, x.Said())
    ensures o in x.Said().owned && o.response.Some? && o.key == key && key.job !in x.Said().Invalid()
  {
    hide Input.Said, Evidence.Invalid;
    o :| o in x.Said().owned && o.response.Some? && o.key == key;
  }
}
