/** Which dispatches, host steps and calls the model timing counts, read off the
    provenance rows and the journal fields (scripts/session-comparison.ts,
    measureModelTiming). */
module StepFields {
  import opened Groups
  import opened Identifiers
  import opened Json
  import opened ModelTiming
  import opened TimingFields

  // ---------------------------------------------------------------- dispatch provenance

  /** The row is a dispatch of source `n` under this printed ordinal. */
  ghost predicate DispatchRow(c: Context, rows: seq<Provenance>, i: int, n: nat, text: string) {
    0 <= i < |rows| && rows[i].sourceUserSeq == n && n in c.sources && c.show(rows[i].ordinal) == text
  }

  ghost predicate SoleDispatch(c: Context, rows: seq<Provenance>, i: int, n: nat, text: string) {
    && DispatchRow(c, rows, i, n, text) && (forall j | DispatchRow(c, rows, j, n, text) :: j == i)
    && ValidProvenance(c, rows[i])
  }

  lemma DispatchInRange(c: Context, rows: seq<Provenance>, j: int, n: nat, text: string)
    requires DispatchRow(c, rows, j, n, text)
    ensures 0 <= j < |rows|
  {
  }

  lemma SoleIs(c: Context, rows: seq<Provenance>, i: nat, n: nat, text: string)
    requires i < |rows|
    ensures SoleProvenance(c, rows, i) && KeyOf(c, rows[i]) == (n, text) <==> SoleDispatch(c, rows, i, n, text)
  {
    hide ValidProvenance;
    forall j | 0 <= j < |rows|
      ensures DispatchRow(c, rows, j, n, text)
              <==> rows[j].sourceUserSeq in c.sources && KeyOf(c, rows[j]) == (n, text) {
    }
    hide DispatchRow, KeyOf;
    forall j | DispatchRow(c, rows, j, n, text) ensures 0 <= j < |rows| {
      DispatchInRange(c, rows, j, n, text);
    }
  }

  /** A request is kept, with its time, exactly when one row names it, in the current
      protocol, bound to its source, and not before the source was accepted. */
  lemma RequestIs(c: Context, rows: seq<Provenance>, requests: map<RequestKey, int>, n: nat, text: string, at: int)
    requires RequestsRead(c, rows, requests)
    ensures (n, text) in requests && requests[(n, text)] == at <==>
              exists i, accepted, k: nat ::
                && DispatchRow(c, rows, i, n, text) && (forall j | DispatchRow(c, rows, j, n, text) :: j == i)
                && rows[i].protocolVersion == 1 && rows[i].boundSource == Some(n) && Numbers(rows[i].ordinal, k)
                && rows[i].createdAt == Some(at) && c.sources[n].createdAt == Some(accepted) && accepted <= at
  {
    forall i | 0 <= i < |rows|
      ensures SoleProvenance(c, rows, i) && KeyOf(c, rows[i]) == (n, text) <==> SoleDispatch(c, rows, i, n, text) {
      SoleIs(c, rows, i, n, text);
    }
    forall i | 0 <= i < |rows|
      ensures forall k: nat :: rows[i].ordinal.PositiveSeq() == Some(k) <==> Numbers(rows[i].ordinal, k) {
      PositiveIs(rows[i].ordinal);
    }
    hide SoleProvenance, Value.PositiveSeq, Numbers, DispatchRow;
    if (n, text) in requests && requests[(n, text)] == at {
      var i :| 0 <= i < |rows| && SoleProvenance(c, rows, i) && KeyOf(c, rows[i]) == (n, text)
          && Some(requests[(n, text)]) == rows[i].createdAt;
      assert Numbers(rows[i].ordinal, rows[i].ordinal.PositiveSeq().value);
      assert c.sources[n].createdAt == Some(c.sources[n].createdAt.value);
    }
  }

  // ---------------------------------------------------------------- events and closes

  /** The event observes a step of source `n`, in attempt `a` of its lineage. */
  ghost predicate Observes(c: Context, owners: map<string, nat>, e: Event, n: nat, a: string, k: string) {
    && e.role == "system" && e.data.version == Num(1.0)
    && Numbers(e.data.sourceUserSeq, n) && n in c.sources && c.sources[n].seqNo < e.seqNo
    && e.data.runAttemptId == Str(a) && a in owners && c.isAncestor(n, owners[a])
    && e.data.stepId == Str(k) && (exists ch :: ch in k && !IsBlank(ch))
    && (e.data.retired == Bool(true) || e.data.retired == Bool(false))
  }

  /** An event belongs to a step exactly when its own fields say so. */
  lemma StepIs(c: Context, owners: map<string, nat>, e: Event, k: string)
    ensures StepKey(c, owners)(e) == Some(k) <==> exists n: nat, a :: Observes(c, owners, e, n, a, k)
  {
    PositiveIs(e.data.sourceUserSeq);
    if StepKey(c, owners)(e) == Some(k) {
      assert Observes(c, owners, e, e.data.sourceUserSeq.PositiveSeq().value, e.data.runAttemptId.s, k);
    }
    if n: nat, a :| Observes(c, owners, e, n, a, k) {
      assert (n as real).Floor == n;
    }
  }

  /** The two payloads print alike in every field that a close is compared by. */
  ghost predicate SameClose(a: Data, b: Data) {
    && Alike(a.version, b.version) && Alike(a.sourceUserSeq, b.sourceUserSeq) && Alike(a.stepId, b.stepId)
    && Alike(a.runAttemptId, b.runAttemptId) && Alike(a.requestOrdinal, b.requestOrdinal) && Alike(a.phase, b.phase)
    && Alike(a.callId, b.callId) && Alike(a.at, b.at) && Alike(a.durationMs, b.durationMs)
    && Alike(a.outcome, b.outcome) && Alike(a.retired, b.retired) && Alike(a.requestAborted, b.requestAborted)
    && Alike(a.attemptCount, b.attemptCount) && Alike(a.failedAttemptCount, b.failedAttemptCount)
    && Alike(a.attemptMs, b.attemptMs) && Alike(a.failedAttemptMs, b.failedAttemptMs)
    && Alike(a.retryWaitMs, b.retryWaitMs)
  }

  lemma FingerprintIs(a: Data, b: Data)
    ensures a.Fingerprint() == b.Fingerprint() <==> SameClose(a, b)
  {
  }

  lemma AgreedIs(closing: seq<Event>, first: Event)
    requires closing != [] && closing[0] == first
    ensures Agreed(closing) <==> forall x | x in closing :: SameClose(x.data, first.data)
  {
    forall x | x in closing
      ensures x.data.Fingerprint() == first.data.Fingerprint() <==> SameClose(x.data, first.data) {
      FingerprintIs(x.data, first.data);
    }
    hide Data.Fingerprint, SameClose;
  }

  // ---------------------------------------------------------------- counted steps

  /** The two events close the same request. */
  ghost predicate SameRequest(c: Context, x: Event, y: Event) {
    && x.data.sourceUserSeq == y.data.sourceUserSeq
    && c.show(x.data.requestOrdinal) == c.show(y.data.requestOrdinal)
  }

  /** The close lies in its attempt, which ends at its own end or else at its
      source's terminal, and its dispatch lies in the close. */
  ghost predicate HostInTime(c: Context, owners: map<string, nat>, requests: map<RequestKey, int>, h: Event, n: nat,
      a: string) {
    && a in owners && owners[a] in c.sources && a in c.sources[owners[a]].attempts
    && (n, c.show(h.data.requestOrdinal)) in requests
    && exists at, ms, start: int, end: int, stored: int, ordinal: nat ::
         TimesFit(c.sources[owners[a]], c.sources[owners[a]].attempts[a],
                  requests[(n, c.show(h.data.requestOrdinal))], h, at, ms, start, end, stored, ordinal)
  }

  ghost predicate TimesFit(owner: ModelTiming.Source, bound: Bound, dispatched: int, h: Event, at: real, ms: real,
      start: int, end: int, stored: int, ordinal: nat) {
    && h.data.at == Num(at) && h.data.durationMs == Num(ms) && Numbers(h.data.requestOrdinal, ordinal)
    && 0.0 <= at <= MAX_SAFE_INTEGER as real && 0.0 <= ms <= MAX_SAFE_INTEGER as real
    && bound.start == Some(start) && (bound.end == Some(end) || (bound.end == None && owner.terminalAt == Some(end)))
    && start as real <= at - ms && at <= end as real && at - ms <= dispatched as real <= at
    && h.createdAt == Some(stored) && stored <= end
  }

  /** The step's first close is agreed, alone in its request, in time, and of the
      same source and attempt as every row of the step. */
  ghost predicate StepCounts(c: Context, owners: map<string, nat>, requests: map<RequestKey, int>, steps: Steps,
      k: string, h: Event)
    requires k in steps
  {
    && (forall x | x in steps[k] && ClosesStep()(x) :: SameClose(x.data, h.data))
    && (forall j, x | j in steps && x in steps[j] && ClosesStep()(x) && SameRequest(c, x, h) :: j == k)
    && (h.data.outcome == Str("returned") || h.data.outcome == Str("failed") || h.data.outcome == Str("cancelled"))
    && (forall x | x in steps[k] :: x.data.sourceUserSeq == h.data.sourceUserSeq
                                    && x.data.runAttemptId == h.data.runAttemptId)
    && exists n: nat, a :: Numbers(h.data.sourceUserSeq, n) && h.data.runAttemptId == Str(a) && a in owners
                           && HostInTime(c, owners, requests, h, n, a)
  }

  lemma SameRequestIs(c: Context, x: Event, y: Event)
    requires x.data.sourceUserSeq.PositiveSeq().Some? && y.data.sourceUserSeq.PositiveSeq().Some?
    ensures RowKey(c, x) == RowKey(c, y) <==> SameRequest(c, x, y)
  {
  }

  lemma AcceptedNumbers(c: Context, owners: map<string, nat>, e: Event)
    requires Accepted(c, owners, e)
    ensures e.data.sourceUserSeq.PositiveSeq().Some? && e.data.runAttemptId.Str? && e.data.runAttemptId.s in owners
  {
  }

  lemma SoleStep(c: Context, owners: map<string, nat>, steps: Steps, k: string, h: Event)
    requires (forall j, x | j in steps && x in steps[j] :: Accepted(c, owners, x)) && k in steps && h in steps[k]
    requires HostClose(h)
    ensures |HostSteps(c, steps, RowKey(c, h))| <= 1
            <==> forall j, x | j in steps && x in steps[j] && ClosesStep()(x) && SameRequest(c, x, h) :: j == k
  {
    var ids := HostSteps(c, steps, RowKey(c, h));
    forall j, x | j in steps && x in steps[j] ensures RowKey(c, x) == RowKey(c, h) <==> SameRequest(c, x, h) {
      AcceptedNumbers(c, owners, x);
      AcceptedNumbers(c, owners, h);
      SameRequestIs(c, x, h);
    }
    hide SameRequest, Accepted, RowKey;
    assert k in ids;
    forall j ensures j in ids <==> exists x :: j in steps && x in steps[j] && ClosesStep()(x) && SameRequest(c, x, h) {
    }
    hide HostSteps;
    if |ids| <= 1 {
      SmallSet(ids);
    }
    if forall j, x | j in steps && x in steps[j] && ClosesStep()(x) && SameRequest(c, x, h) :: j == k {
      assert ids == {k} && |{k}| == 1;
    }
  }

  lemma HostIs(c: Context, owners: map<string, nat>, requests: map<RequestKey, int>, h: Event, rows: seq<Event>)
    requires Owners(c, owners) && Accepted(c, owners, h)
    ensures HostBounded(c, owners, requests, h, rows) <==>
              && (h.data.outcome == Str("returned") || h.data.outcome == Str("failed")
                  || h.data.outcome == Str("cancelled"))
              && (forall x | x in rows :: x.data.sourceUserSeq == h.data.sourceUserSeq
                                          && x.data.runAttemptId == h.data.runAttemptId)
              && exists n: nat, a :: Numbers(h.data.sourceUserSeq, n) && h.data.runAttemptId == Str(a) && a in owners
                                     && HostInTime(c, owners, requests, h, n, a)
  {
    AcceptedNumbers(c, owners, h);
    var n, a := h.data.sourceUserSeq.PositiveSeq().value, h.data.runAttemptId.s;
    PositiveIs(h.data.sourceUserSeq);
    assert Numbers(h.data.sourceUserSeq, n);
    if HostBounded(c, owners, requests, h, rows) {
      BoundedInTime(c, owners, requests, h, rows, n, a);
    }
    if HostInTime(c, owners, requests, h, n, a) {
      InTimeBounded(c, owners, requests, h, n, a);
    }
    assert forall m: nat, b | Numbers(h.data.sourceUserSeq, m) && h.data.runAttemptId == Str(b) :: m == n && b == a;
    RowsBounded(c, owners, requests, h, rows);
    hide HostInTime, HostBounded, Numbers, Accepted, Owners;
  }

  lemma RowsBounded(c: Context, owners: map<string, nat>, requests: map<RequestKey, int>, h: Event, rows: seq<Event>)
    requires Owners(c, owners) && Accepted(c, owners, h)
    ensures HostBounded(c, owners, requests, h, rows) <==>
              && HostBounded(c, owners, requests, h, [])
              && forall x | x in rows :: x.data.sourceUserSeq == h.data.sourceUserSeq
                                         && x.data.runAttemptId == h.data.runAttemptId
    ensures HostBounded(c, owners, requests, h, []) ==>
              h.data.outcome == Str("returned") || h.data.outcome == Str("failed") || h.data.outcome == Str("cancelled")
  {
  }

  lemma BoundedInTime(c: Context, owners: map<string, nat>, requests: map<RequestKey, int>, h: Event, rows: seq<Event>,
      n: nat, a: string)
    requires Owners(c, owners) && Accepted(c, owners, h) && HostBounded(c, owners, requests, h, rows)
    requires h.data.sourceUserSeq.PositiveSeq() == Some(n) && h.data.runAttemptId == Str(a)
    ensures HostInTime(c, owners, requests, h, n, a)
  {
    AcceptedNumbers(c, owners, h);
    PositiveIs(h.data.requestOrdinal);
    var owner, bound := c.sources[owners[a]], c.sources[owners[a]].attempts[a];
    var end := if bound.end.Some? then bound.end.value else owner.terminalAt.value;
    assert TimesFit(owner, bound, requests[(n, c.show(h.data.requestOrdinal))], h, h.data.at.x, h.data.durationMs.x,
                    bound.start.value, end, h.createdAt.value, h.data.requestOrdinal.PositiveSeq().value);
  }

  lemma InTimeBounded(c: Context, owners: map<string, nat>, requests: map<RequestKey, int>, h: Event, n: nat, a: string)
    requires Owners(c, owners) && Accepted(c, owners, h) && HostInTime(c, owners, requests, h, n, a)
    requires h.data.sourceUserSeq.PositiveSeq() == Some(n) && h.data.runAttemptId == Str(a)
    ensures HostBounded(c, owners, requests, h, []) <==>
              h.data.outcome == Str("returned") || h.data.outcome == Str("failed") || h.data.outcome == Str("cancelled")
  {
    PositiveIs(h.data.requestOrdinal);
    var at, ms, start: int, end: int, stored: int, ordinal: nat :|
      TimesFit(c.sources[owners[a]], c.sources[owners[a]].attempts[a], requests[(n, c.show(h.data.requestOrdinal))], h,
               at, ms, start, end, stored, ordinal);
  }

  lemma NoneAgreed()
    ensures !Agreed([])
  {
  }

  /** A step is counted exactly when the fields of its rows say so. */
  lemma StepCountsIs(c: Context, owners: map<string, nat>, requests: map<RequestKey, int>, steps: Steps, k: string)
    requires Owners(c, owners) && k in steps && forall j, x | j in steps && x in steps[j] :: Accepted(c, owners, x)
    ensures CountableStep(c, owners, requests, steps, k) <==>
              exists h :: First(steps[k], ClosesStep()) == Some(h) && StepCounts(c, owners, requests, steps, k, h)
  {
    hide First, Agreed, HostBounded, HostInTime, SameClose, SameRequest, Accepted, RowKey, HostSteps, HostCloses;
    FirstIsHostClose(steps[k]);
    var closing := HostCloses(steps[k]);
    HostClosesAre(steps[k]);
    if closing != [] {
      var h := closing[0];
      assert h in closing;
      AgreedIs(closing, h);
      SoleStep(c, owners, steps, k, h);
      HostIs(c, owners, requests, h, steps[k]);
      assert forall x :: x in closing <==> x in steps[k] && ClosesStep()(x);
    } else {
      NoneAgreed();
    }
  }

  // ---------------------------------------------------------------- counted calls

  ghost predicate Plausible(v: real) {
    0.0 <= v <= MAX_SAFE_INTEGER as real
  }

  /** The numbers of a call's close: inside its host step, not before its dispatch,
      with failed attempts among the attempts and both times inside its duration. */
  ghost predicate NumbersFit(host: Data, d: Data, dispatched: int, at: real, ms: real, hostAt: real, hostMs: real,
      attempts: nat, failed: nat, attemptMs: real, failedMs: real, waitMs: real) {
    && d.at == Num(at) && d.durationMs == Num(ms) && host.at == Num(hostAt) && host.durationMs == Num(hostMs)
    && d.attemptCount == Num(attempts as real) && d.failedAttemptCount == Num(failed as real)
    && d.attemptMs == Num(attemptMs) && d.failedAttemptMs == Num(failedMs) && d.retryWaitMs == Num(waitMs)
    && Plausible(at) && Plausible(ms) && Plausible(attemptMs) && Plausible(failedMs) && Plausible(waitMs)
    && hostAt - hostMs <= at - ms && at <= hostAt && dispatched as real <= at
    && failed <= attempts <= MAX_SAFE_INTEGER && failedMs <= attemptMs && attemptMs + waitMs <= ms
  }

  ghost predicate NumbersAgree(host: Data, d: Data, dispatched: int) {
    exists at, ms, hostAt, hostMs, attempts: nat, failed: nat, attemptMs, failedMs, waitMs ::
      NumbersFit(host, d, dispatched, at, ms, hostAt, hostMs, attempts, failed, attemptMs, failedMs, waitMs)
  }

  /** The call's first close is agreed and not after the host close, no other step
      mentions the call, and all its rows name the request of the step. */
  ghost predicate CallCounts(c: Context, requests: map<RequestKey, int>, steps: Steps, source: nat, k: string,
      host: Event, id: string, x: Event)
    requires k in steps
  {
    && x.seqNo <= host.seqNo && (forall y | y in steps[k] && ClosesCall(id)(y) :: SameClose(y.data, x.data))
    && (forall j, y | j in steps && y in steps[j] && y.data.callId == Str(id) :: j == k)
    && (forall y | y in steps[k] && y.data.callId == Str(id) && y.data.phase != Str("host_step_finished") ::
          y.data.requestOrdinal == Absent || y.data.requestOrdinal == x.data.requestOrdinal)
    && x.data.requestOrdinal == host.data.requestOrdinal
    && (exists ordinal: nat :: Numbers(x.data.requestOrdinal, ordinal))
    && (source, c.show(x.data.requestOrdinal)) in requests
    && NumbersAgree(host.data, x.data, requests[(source, c.show(x.data.requestOrdinal))])
    && x.data.outcome in {Str("returned"), Str("failed"), Str("cancelled"), Str("interrupted")}
    && x.data.requestAborted in {Absent, Bool(true), Bool(false)}
  }

  lemma BoundedIs(total: Data, host: Data, dispatchAt: int)
    requires host.at.Timing() && host.durationMs.Timing()
    ensures CallBounded(total, host, dispatchAt) && total.at.x <= host.at.x <==>
              && total.requestOrdinal == host.requestOrdinal
              && (exists ordinal: nat :: Numbers(total.requestOrdinal, ordinal))
              && NumbersAgree(host, total, dispatchAt)
              && total.outcome in {Str("returned"), Str("failed"), Str("cancelled"), Str("interrupted")}
              && total.requestAborted in {Absent, Bool(true), Bool(false)}
    ensures CallBounded(total, host, dispatchAt) ==> total.at.Timing()
  {
    PositiveIs(total.requestOrdinal);
    if CallBounded(total, host, dispatchAt) && total.at.x <= host.at.x {
      assert Numbers(total.requestOrdinal, total.requestOrdinal.PositiveSeq().value);
      BoundedFits(total, host, dispatchAt);
    }
    if NumbersAgree(host, total, dispatchAt) {
      FitsBounded(total, host, dispatchAt);
    }
    hide NumbersAgree, Value.PositiveSeq, Numbers;
  }

  lemma BoundedFits(total: Data, host: Data, dispatchAt: int)
    requires host.at.Timing() && host.durationMs.Timing()
    requires CallBounded(total, host, dispatchAt) && total.at.x <= host.at.x
    ensures NumbersAgree(host, total, dispatchAt)
  {
    assert NumbersFit(host, total, dispatchAt, total.at.x, total.durationMs.x, host.at.x, host.durationMs.x,
                      total.attemptCount.x.Floor, total.failedAttemptCount.x.Floor, total.attemptMs.x,
                      total.failedAttemptMs.x, total.retryWaitMs.x);
  }

  lemma FitsBounded(total: Data, host: Data, dispatchAt: int)
    requires host.at.Timing() && host.durationMs.Timing() && NumbersAgree(host, total, dispatchAt)
    ensures total.at.Timing() && total.at.x <= host.at.x
    ensures CallBounded(total, host, dispatchAt) <==>
              && total.requestOrdinal.PositiveSeq().Some? && total.requestOrdinal == host.requestOrdinal
              && total.outcome in {Str("returned"), Str("failed"), Str("cancelled"), Str("interrupted")}
              && (total.requestAborted.Absent? || total.requestAborted.Bool?)
  {
    var at, ms, hostAt, hostMs, attempts: nat, failed: nat, attemptMs, failedMs, waitMs :|
      NumbersFit(host, total, dispatchAt, at, ms, hostAt, hostMs, attempts, failed, attemptMs, failedMs, waitMs);
    assert (attempts as real).Floor == attempts && (failed as real).Floor == failed;
    hide Value.PositiveSeq;
  }

  lemma SoleCall(steps: Steps, k: string, id: string, x: Event)
    requires k in steps && x in steps[k] && x.data.callId == Str(id)
    ensures |CallSteps(steps, id)| <= 1
            <==> forall j, y | j in steps && y in steps[j] && y.data.callId == Str(id) :: j == k
  {
    var ids := CallSteps(steps, id);
    assert k in ids;
    forall j ensures j in ids <==> exists y :: j in steps && y in steps[j] && y.data.callId == Str(id) {
    }
    hide CallSteps;
    if |ids| <= 1 {
      SmallSet(ids);
    }
    if forall j, y | j in steps && y in steps[j] && y.data.callId == Str(id) :: j == k {
      assert ids == {k} && |{k}| == 1;
    }
  }

  lemma {:induction false} ClosingsAre(rows: seq<Event>)
    ensures forall e :: e in Closings(rows) <==> e in rows && e.data.phase == Str("call_finished")
  {
    if rows != [] {
      ClosingsAre(rows[1..]);
    }
  }

  lemma RowsOfCall(rows: seq<Event>, id: string)
    requires NonBlank(Str(id))
    ensures forall e :: e in Members(rows, CallKey(), id) <==>
                          e in rows && e.data.callId == Str(id) && e.data.phase != Str("host_step_finished")
  {
    MembersAre(rows, CallKey(), id);
  }

  /** A call of a counted step is counted exactly when the fields of its rows say so. */
  lemma CallCountsIs(c: Context, requests: map<RequestKey, int>, steps: Steps, source: nat, k: string, host: Event,
      id: string)
    requires k in steps && host.data.at.Timing() && host.data.durationMs.Timing() && NonBlank(Str(id))
    ensures Countable(c, requests, steps, source, host, id, Members(steps[k], CallKey(), id)) <==>
              exists x :: First(steps[k], ClosesCall(id)) == Some(x)
                          && CallCounts(c, requests, steps, source, k, host, id, x)
  {
    hide First, Agreed, CallBounded, SameClose, CallSteps, Closings, NumbersAgree, NonBlank, Numbers;
    var rows := Members(steps[k], CallKey(), id);
    FirstIsClosing(steps[k], id);
    ClosingsAre(rows);
    RowsOfCall(steps[k], id);
    hide Members, CallKey;
    var closing := Closings(rows);
    if closing != [] {
      var x := closing[0];
      assert x in closing && x in rows;
      AgreedIs(closing, x);
      SoleCall(steps, k, id, x);
      if (source, c.show(x.data.requestOrdinal)) in requests {
        BoundedIs(x.data, host.data, requests[(source, c.show(x.data.requestOrdinal))]);
      }
      assert forall y :: y in closing <==> y in steps[k] && ClosesCall(id)(y);
    } else {
      NoneAgreed();
    }
  }

  // ---------------------------------------------------------------- scope and sources

  /** An event is in scope exactly when its source, read as a number, is one of the
      task's; a value that is no number is converted first. */
  lemma ScopeIs(c: Context, e: Event)
    ensures InScope(c, e) <==>
              exists n :: n in c.sources
                          && (e.data.sourceUserSeq == Num(n as real)
                              || (!e.data.sourceUserSeq.Num? && c.coerced(e.data.sourceUserSeq) == Some(n)))
  {
    var v := e.data.sourceUserSeq;
    if InScope(c, e) {
      var n: nat := if v.Num? then v.x.Floor else c.coerced(v).value;
      assert n in c.sources && (v == Num(n as real) || (!v.Num? && c.coerced(v) == Some(n)));
    }
    if n :| n in c.sources && (v == Num(n as real) || (!v.Num? && c.coerced(v) == Some(n))) {
      assert (n as real).Floor == n;
    }
  }

  /** The observed sources are those of the attempts of the counted host closes. */
  lemma SourcesAre(c: Context, owners: map<string, nat>, requests: map<RequestKey, int>, steps: Steps,
      trail: seq<Step>, n: nat)
    requires Audited(c, owners, requests, steps, steps.Keys, trail)
    ensures n in OwnersOf(owners, trail) <==>
              exists step, a :: step in trail && step.host.data.runAttemptId == Str(a) && a in owners && owners[a] == n
  {
    forall step | step in trail ensures step.host.data.runAttemptId.Str? && step.host.data.runAttemptId.s in owners {
      OwnHost(c, owners, requests, steps, step);
    }
    hide Audited;
  }

  lemma OwnHost(c: Context, owners: map<string, nat>, requests: map<RequestKey, int>, steps: Steps, step: Step)
    requires OwnStep(c, owners, requests, steps, step)
    ensures step.host.data.runAttemptId.Str? && step.host.data.runAttemptId.s in owners
  {
    hide HostBounded, HostSteps;
  }
}
