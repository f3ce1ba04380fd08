/** Timing of the host model steps of one task (scripts/session-comparison.ts,
    measureModelTiming): what the coverage labels certify, and which relations
    hold between the totals through every skip. */
module ModelTiming {
  import opened Groups
  import opened Identifiers
  import opened Json
  import opened Listings

  datatype Data = Data(
    version: Value, sourceUserSeq: Value, stepId: Value, runAttemptId: Value, requestOrdinal: Value,
    phase: Value, callId: Value, at: Value, durationMs: Value, outcome: Value, retired: Value, requestAborted: Value,
    attemptCount: Value, failedAttemptCount: Value, attemptMs: Value, failedAttemptMs: Value, retryWaitMs: Value)
  {
    /** The fields that decide whether two closes of one thing agree. */
    function Fingerprint(): Data {
      Data(version.Printed(), sourceUserSeq.Printed(), stepId.Printed(), runAttemptId.Printed(),
           requestOrdinal.Printed(),
           phase.Printed(), callId.Printed(), at.Printed(), durationMs.Printed(), outcome.Printed(), retired.Printed(),
           requestAborted.Printed(), attemptCount.Printed(), failedAttemptCount.Printed(), attemptMs.Printed(),
           failedAttemptMs.Printed(), retryWaitMs.Printed())
    }
  }

  /** A `model_resilience_observed` event; `createdAt` is its parsed timestamp. */
  datatype Event = Event(seqNo: nat, role: string, createdAt: Option<int>, data: Data)

  datatype Bound = Bound(start: Option<int>, end: Option<int>)

  datatype Source = Source(seqNo: nat, createdAt: Option<int>, attempts: map<string, Bound>, unfinished: nat,
      terminalAt: Option<int>)

  datatype Provenance = Provenance(sourceUserSeq: nat, ordinal: Value, protocolVersion: int, createdAt: Option<int>,
      boundSource: Option<nat>)

  /** A request key: the source and the printed ordinal. */
  type RequestKey = (nat, string)

  /** `show` is the template-literal rendering of a value, and `coerced` the
      sequence that a value which is no number still converts to, if any. */
  datatype Context = Context(sources: map<nat, Source>, isAncestor: (nat, nat) -> bool, show: Value -> string,
      coerced: Value -> Option<nat>)

  datatype Kind = HostStep | ResilienceCall

  datatype Issue =
    | DuplicateProvenance | InvalidProvenance | ProvenanceUnavailable | UnfinishedSourceAttempt(source: nat)
    | UnprovedOwner | MissingClose(kind: Kind) | DuplicateClose(kind: Kind) | ConflictingClose(kind: Kind)
    | DuplicateHostRequest | UnboundedHostStep
    | RetiredHostStep | InvalidCallIdentity | LateCall | DuplicateCallIdentity | UnboundedCall | RetiredCall
    | StepWithoutCalls | TimingUnavailable | SourceUnobserved(source: nat) | PartialRequests | SumOverflow

  // ---------------------------------------------------------------- dispatch provenance

  function KeyOf(c: Context, row: Provenance): RequestKey {
    (row.sourceUserSeq, c.show(row.ordinal))
  }

  predicate ValidProvenance(c: Context, row: Provenance)
    requires row.sourceUserSeq in c.sources
  {
    && row.protocolVersion == 1 && row.boundSource == Some(row.sourceUserSeq)
    && row.ordinal.PositiveSeq().Some? && row.createdAt.Some?
    && c.sources[row.sourceUserSeq].createdAt.Some?
    && row.createdAt.value >= c.sources[row.sourceUserSeq].createdAt.value
  }

  /** The only in-scope row of its key, and a valid one. */
  ghost predicate SoleProvenance(c: Context, rows: seq<Provenance>, i: nat)
    requires i < |rows|
  {
    && rows[i].sourceUserSeq in c.sources && ValidProvenance(c, rows[i])
    && forall j | 0 <= j < |rows| && j != i && rows[j].sourceUserSeq in c.sources ::
         KeyOf(c, rows[j]) != KeyOf(c, rows[i])
  }

  ghost function SeenKeys(c: Context, rows: seq<Provenance>): set<RequestKey> {
    set i | 0 <= i < |rows| && rows[i].sourceUserSeq in c.sources :: KeyOf(c, rows[i])
  }

  ghost predicate RequestsRead(c: Context, rows: seq<Provenance>, requests: map<RequestKey, int>) {
    && (forall k | k in requests ::
          exists i ::
            0 <= i < |rows| && SoleProvenance(c, rows, i) && KeyOf(c, rows[i]) == k
            && Some(requests[k]) == rows[i].createdAt)
    && (forall i | 0 <= i < |rows| && SoleProvenance(c, rows, i) :: KeyOf(c, rows[i]) in requests)
  }

  lemma RequestsStep(c: Context, rows: seq<Provenance>, requests: map<RequestKey, int>, row: Provenance)
    requires RequestsRead(c, rows, requests) && row.sourceUserSeq in c.sources
    ensures var k := KeyOf(c, row);
            RequestsRead(c, rows + [row],
                         if k in SeenKeys(c, rows) then requests - {k}
                         else if ValidProvenance(c, row) then requests[k := row.createdAt.value]
                         else requests)
  {
    var all := rows + [row];
    assert all[..|rows|] == rows && all[|rows|] == row;
    forall i | 0 <= i < |rows|
      ensures SoleProvenance(c, all, i) <==> SoleProvenance(c, rows, i) && KeyOf(c, rows[i]) != KeyOf(c, row)
    {
      assert all[i] == rows[i];
      if SoleProvenance(c, all, i) {
        forall j | 0 <= j < |rows| && j != i
            && rows[j].sourceUserSeq in c.sources ensures KeyOf(c, rows[j]) != KeyOf(c, rows[i]) {
          assert all[j] == rows[j];
        }
      }
    }
    assert SoleProvenance(c, all, |rows|) <==> ValidProvenance(c, row) && KeyOf(c, row) !in SeenKeys(c, rows) by {
      forall j | 0 <= j < |rows| ensures all[j] == rows[j] {
      }
    }
    hide SoleProvenance;
  }

  /** Every in-scope row is a valid one and the only one of its key. */
  ghost predicate AllSole(c: Context, rows: seq<Provenance>) {
    forall i | 0 <= i < |rows| && rows[i].sourceUserSeq in c.sources :: SoleProvenance(c, rows, i)
  }

  lemma AllSoleStep(c: Context, rows: seq<Provenance>, row: Provenance)
    ensures AllSole(c, rows + [row]) <==>
              AllSole(c, rows)
                  && (row.sourceUserSeq in c.sources ==> ValidProvenance(c, row) && KeyOf(c, row) !in SeenKeys(c, rows))
  {
    hide ValidProvenance;
    var all := rows + [row];
    assert all[|rows|] == row && forall i | 0 <= i < |rows| :: all[i] == rows[i];
    if AllSole(c, all) {
      forall i | 0 <= i < |rows| && rows[i].sourceUserSeq in c.sources ensures SoleProvenance(c, rows, i) {
        assert SoleProvenance(c, all, i);
        assert forall j | 0 <= j < |rows| :: all[j] == rows[j];
      }
      assert row.sourceUserSeq in c.sources ==> SoleProvenance(c, all, |rows|);
    }
  }

  /** Row `n` is reported: it repeats the key of an earlier one, or is invalid. */
  ghost predicate ProvenanceReported(c: Context, rows: seq<Provenance>, n: nat, i: Issue)
    requires n < |rows|
  {
    && rows[n].sourceUserSeq in c.sources
    && if exists m :: 0 <= m < n && rows[m].sourceUserSeq in c.sources && KeyOf(c, rows[m]) == KeyOf(c, rows[n])
       then i == DuplicateProvenance
       else i == InvalidProvenance && !ValidProvenance(c, rows[n])
  }

  ghost predicate RowsReported(c: Context, rows: seq<Provenance>, n: nat, issues: set<Issue>)
    requires n <= |rows|
  {
    forall i :: i in issues <==> exists m :: 0 <= m < n && ProvenanceReported(c, rows, m, i)
  }

  lemma RowsReportedStep(c: Context, rows: seq<Provenance>, n: nat, issues: set<Issue>, found: set<Issue>)
    requires n < |rows| && RowsReported(c, rows, n, issues)
    requires forall i :: i in found <==> ProvenanceReported(c, rows, n, i)
    ensures RowsReported(c, rows, n + 1, issues + found)
  {
    hide ProvenanceReported;
  }

  lemma SeenBefore(c: Context, rows: seq<Provenance>, n: nat)
    requires n < |rows| && rows[n].sourceUserSeq in c.sources
    ensures KeyOf(c, rows[n]) in SeenKeys(c, rows[..n])
            <==> exists m :: 0 <= m < n && rows[m].sourceUserSeq in c.sources && KeyOf(c, rows[m]) == KeyOf(c, rows[n])
  {
    hide KeyOf;
    if m :| 0 <= m < n && rows[m].sourceUserSeq in c.sources && KeyOf(c, rows[m]) == KeyOf(c, rows[n]) {
      assert rows[..n][m] == rows[m];
    }
  }

  method ReadProvenance(c: Context, rows: seq<Provenance>) returns (requests: map<RequestKey, int>, issues: set<Issue>)
    ensures RequestsRead(c, rows, requests)
    ensures issues == {} <==> AllSole(c, rows)
    ensures RowsReported(c, rows, |rows|, issues)
  {
    hide RequestsRead, AllSole, SeenKeys;
    requests, issues := map[], {};
    var seen: set<RequestKey> := {};
    NoRequests(c);
    for n := 0 to |rows|
      invariant RowsReported(c, rows, n, issues)
      invariant seen == SeenKeys(c, rows[..n])
      invariant RequestsRead(c, rows[..n], requests)
      invariant issues == {} <==> AllSole(c, rows[..n])
    {
      var row := rows[n];
      assert rows[..n + 1] == rows[..n] + [row];
      SeenStep(c, rows[..n], row);
      AllSoleStep(c, rows[..n], row);
      if row.sourceUserSeq !in c.sources {
        OutOfScope(c, rows[..n], requests, row);
        RowsReportedStep(c, rows, n, issues, {});
        assert issues + {} == issues;
        continue;
      }
      var key := KeyOf(c, row);
      RequestsStep(c, rows[..n], requests, row);
      SeenBefore(c, rows, n);
      if key in seen {
        RowsReportedStep(c, rows, n, issues, {DuplicateProvenance});
        requests, issues := requests - {key}, issues + {DuplicateProvenance};
        continue;
      }
      seen := seen + {key};
      if !ValidProvenance(c, row) {
        RowsReportedStep(c, rows, n, issues, {InvalidProvenance});
        issues := issues + {InvalidProvenance};
        continue;
      }
      RowsReportedStep(c, rows, n, issues, {});
      assert issues + {} == issues;
      requests := requests[key := row.createdAt.value];
    }
    assert rows[..|rows|] == rows;
  }

  lemma NoRequests(c: Context)
    ensures RequestsRead(c, [], map[]) && AllSole(c, []) && SeenKeys(c, []) == {}
  {
  }

  lemma SeenStep(c: Context, rows: seq<Provenance>, row: Provenance)
    ensures SeenKeys(c, rows + [row]) == SeenKeys(c, rows) + if row.sourceUserSeq in c.sources then {KeyOf(c, row)}
            else {}
  {
    var all := rows + [row];
    assert all[|rows|] == row;
    assert forall i | 0 <= i < |rows| :: all[i] == rows[i];
  }

  lemma OutOfScope(c: Context, rows: seq<Provenance>, requests: map<RequestKey, int>, row: Provenance)
    requires RequestsRead(c, rows, requests) && row.sourceUserSeq !in c.sources
    ensures RequestsRead(c, rows + [row], requests)
  {
    var all := rows + [row];
    forall i | 0 <= i < |rows| ensures SoleProvenance(c, all, i) <==> SoleProvenance(c, rows, i) {
      assert all[i] == rows[i];
      assert forall j | 0 <= j < |rows| :: all[j] == rows[j];
    }
    hide SoleProvenance;
  }

  // ---------------------------------------------------------------- grouping by step

  /** Each attempt's source; every attempt of every source has one. */
  ghost predicate Owners(c: Context, owners: map<string, nat>) {
    && (forall a | a in owners :: owners[a] in c.sources && a in c.sources[owners[a]].attempts)
    && (forall n, a | n in c.sources && a in c.sources[n].attempts :: a in owners)
  }

  ghost predicate UnfinishedReported(c: Context, i: Issue) {
    exists n :: n in c.sources && c.sources[n].unfinished > 0 && i == UnfinishedSourceAttempt(n)
  }

  method ReadOwners(c: Context) returns (owners: map<string, nat>, issues: set<Issue>)
    ensures Owners(c, owners)
    ensures issues == {} <==> forall n | n in c.sources :: c.sources[n].unfinished == 0
    ensures forall i :: i in issues <==> UnfinishedReported(c, i)
  {
    owners, issues := map[], {};
    var todo := c.sources.Keys;
    while todo != {}
      invariant todo <= c.sources.Keys
      invariant forall a | a in owners :: owners[a] in c.sources && a in c.sources[owners[a]].attempts
      invariant forall n, a | n in c.sources && n !in todo && a in c.sources[n].attempts :: a in owners
      invariant issues == {} <==> forall n | n in c.sources && n !in todo :: c.sources[n].unfinished == 0
      invariant forall i :: i in issues <==>
                  exists n ::
                    n in c.sources && n !in todo && c.sources[n].unfinished > 0 && i == UnfinishedSourceAttempt(n)
    {
      var n :| n in todo;
      todo := todo - {n};
      owners := owners + map a | a in c.sources[n].attempts :: n;
      if c.sources[n].unfinished > 0 {
        issues := issues + {UnfinishedSourceAttempt(n)};
      }
    }
  }

  predicate InScope(c: Context, e: Event) {
    var v := e.data.sourceUserSeq;
    if v.Num? then v.x.Floor as real == v.x && v.x.Floor >= 0 && v.x.Floor in c.sources
    else c.coerced(v).Some? && c.coerced(v).value in c.sources
  }

  predicate NonBlank(v: Value) {
    v.Str? && exists ch :: ch in v.s && !IsBlank(ch)
  }

  /** The event's ownership is proved: it names a source, a step and an attempt
      of that source's lineage, and follows the source. */
  predicate Accepted(c: Context, owners: map<string, nat>, e: Event) {
    var source := e.data.sourceUserSeq.PositiveSeq();
    && e.role == "system" && e.data.version == Num(1.0)
    && source.Some? && source.value in c.sources
    && NonBlank(e.data.stepId) && e.data.retired.Bool?
    && e.data.runAttemptId.Str? && e.data.runAttemptId.s in owners
    && c.isAncestor(source.value, owners[e.data.runAttemptId.s])
    && e.seqNo > c.sources[source.value].seqNo
  }

  type Steps = map<string, seq<Event>>

  /** The step that an event with proved ownership belongs to. */
  function StepKey(c: Context, owners: map<string, nat>): Event -> Option<string> {
    e => if InScope(c, e) && Accepted(c, owners, e) then Some(e.data.stepId.s) else None
  }

  method GroupSteps(c: Context, owners: map<string, nat>, events: seq<Event>) returns (steps: Steps, issues: set<Issue>)
    ensures Grouped(events, StepKey(c, owners), steps)
    ensures issues == {} <==> forall e | e in events && InScope(c, e) :: Accepted(c, owners, e)
    ensures issues <= {UnprovedOwner}
  {
    hide Accepted, InScope;
    steps := Group(events, StepKey(c, owners));
    issues := {};
    for n := 0 to |events|
      invariant issues == {} <==> forall e | e in events[..n] && InScope(c, e) :: Accepted(c, owners, e)
      invariant issues <= {UnprovedOwner}
    {
      assert events[..n + 1] == events[..n] + [events[n]];
      if InScope(c, events[n]) && !Accepted(c, owners, events[n]) {
        issues := issues + {UnprovedOwner};
      }
    }
    assert events[..|events|] == events;
  }

  predicate HostClose(e: Event) {
    e.data.phase == Str("host_step_finished")
  }

  function RowKey(c: Context, e: Event): RequestKey {
    (e.data.sourceUserSeq.PositiveSeq().GetOr(0), c.show(e.data.requestOrdinal))
  }

  /** The steps that close this request, and the steps that mention this call. */
  function HostSteps(c: Context, steps: Steps, key: RequestKey): set<string> {
    set k, e | k in steps && e in steps[k] && HostClose(e) && RowKey(c, e) == key :: k
  }

  function CallSteps(steps: Steps, callId: string): set<string> {
    set k, e | k in steps && e in steps[k] && e.data.callId == Str(callId) :: k
  }

  // ---------------------------------------------------------------- closing records

  /** There is a close, and all of them say the same. */
  ghost predicate Agreed(closing: seq<Event>) {
    closing != [] && forall e | e in closing :: e.data.Fingerprint() == closing[0].data.Fingerprint()
  }

  /** What the closes of one group are reported for. */
  ghost predicate CloseReported(closing: seq<Event>, kind: Kind, i: Issue) {
    || (i == MissingClose(kind) && closing == [])
    || (i == DuplicateClose(kind) && |closing| > 1)
    || (i == ConflictingClose(kind) && closing != [] && !Agreed(closing))
  }

  /** The one close of a group: repeated closes are reported, and disagreeing
      ones are refused. */
  method OneClose(closing: seq<Event>, kind: Kind) returns (close: Option<Event>, issues: set<Issue>)
    ensures close.Some? <==> Agreed(closing)
    ensures close.Some? ==> close.value == closing[0]
    ensures close.None? ==> issues != {}
    ensures issues == {} <==> |closing| == 1
    ensures forall i :: i in issues <==> CloseReported(closing, kind, i)
  {
    hide Data.Fingerprint;
    if |closing| == 0 {
      return None, {MissingClose(kind)};
    }
    issues := if |closing| > 1 then {DuplicateClose(kind)} else {};
    if exists e :: e in closing && e.data.Fingerprint() != closing[0].data.Fingerprint() {
      return None, issues + {ConflictingClose(kind)};
    }
    return Some(closing[0]), issues;
  }

  datatype CallTotal = CallTotal(key: RequestKey, at: real, durationMs: real, attempts: int, failed: int,
      failedMs: real, waitMs: real, retired: bool, aborted: bool)

  /** A counted call lies inside its host step and its parts add up. */
  ghost predicate CallSound(call: CallTotal, hostAt: real, hostMs: real) {
    && 0.0 <= call.durationMs && hostAt - hostMs <= call.at - call.durationMs && call.at <= hostAt
    && 0 <= call.failed <= call.attempts
    && 0.0 <= call.failedMs && 0.0 <= call.waitMs && call.failedMs + call.waitMs <= call.durationMs
  }

  predicate CallBounded(total: Data, host: Data, dispatchAt: int) {
    && total.requestOrdinal.PositiveSeq().Some? && total.requestOrdinal == host.requestOrdinal
    && total.durationMs.Timing() && total.at.Timing() && host.at.Timing() && host.durationMs.Timing()
    && total.at.x - total.durationMs.x >= host.at.x - host.durationMs.x
    && total.at.x >= dispatchAt as real
    && total.outcome in {Str("returned"), Str("failed"), Str("cancelled"), Str("interrupted")}
    && total.attemptCount.Count() && total.failedAttemptCount.Count()
    && total.failedAttemptCount.x <= total.attemptCount.x
    && total.attemptMs.Timing() && total.failedAttemptMs.Timing() && total.retryWaitMs.Timing()
    && total.failedAttemptMs.x <= total.attemptMs.x && total.attemptMs.x + total.retryWaitMs.x <= total.durationMs.x
    && (total.requestAborted.Absent? || total.requestAborted.Bool?)
  }

  /** The calls that enter the totals: one agreed close, not after its host
      step, of a call that no other step mentions and whose request is known. */
  ghost predicate Countable(c: Context, requests: map<RequestKey, int>, steps: Steps, source: nat, host: Event,
      callId: string, rows: seq<Event>)
    requires host.data.at.Timing() && host.data.durationMs.Timing()
  {
    var closing := Closings(rows);
    && Agreed(closing)
    && closing[0].seqNo <= host.seqNo && closing[0].data.at.Timing() && closing[0].data.at.x <= host.data.at.x
    && |CallSteps(steps, callId)| <= 1
    && (source, c.show(closing[0].data.requestOrdinal)) in requests
    && CallBounded(closing[0].data, host.data, requests[(source, c.show(closing[0].data.requestOrdinal))])
    && forall row | row in rows :: row.data.requestOrdinal in {Absent, closing[0].data.requestOrdinal}
  }

  /** A countable call that closed once and was not retired. */
  ghost predicate CleanCall(c: Context, requests: map<RequestKey, int>, steps: Steps, source: nat, host: Event,
      callId: string, rows: seq<Event>)
    requires host.data.at.Timing() && host.data.durationMs.Timing()
  {
    Countable(c, requests, steps, source, host, callId, rows) && |Closings(rows)| == 1
        && Closings(rows)[0].data.retired != Bool(true)
  }

  predicate LateClose(close: Event, host: Event)
    requires host.data.at.Num?
  {
    close.seqNo > host.seqNo || !close.data.at.Timing() || close.data.at.x > host.data.at.x
  }

  /** The close's request is known, it fits in its host step, and no row of the
      call names another request. */
  predicate FitsRequest(c: Context, requests: map<RequestKey, int>, source: nat, host: Event, close: Event,
      rows: seq<Event>) {
    var key := (source, c.show(close.data.requestOrdinal));
    && key in requests && CallBounded(close.data, host.data, requests[key])
    && forall row | row in rows :: row.data.requestOrdinal in {Absent, close.data.requestOrdinal}
  }

  /** What the agreed close of a call is reported for: the first check it fails,
      or its retirement. */
  ghost predicate AgreedCallReported(c: Context, requests: map<RequestKey, int>, steps: Steps, source: nat, host: Event,
      callId: string, rows: seq<Event>, close: Event, i: Issue)
    requires host.data.at.Num?
  {
    if LateClose(close, host) then i == LateCall
    else if |CallSteps(steps, callId)| > 1 then i == DuplicateCallIdentity
    else if !FitsRequest(c, requests, source, host, close, rows) then i == UnboundedCall
    else i == RetiredCall && close.data.retired == Bool(true)
  }

  ghost predicate CallReported(c: Context, requests: map<RequestKey, int>, steps: Steps, source: nat, host: Event,
      callId: string, rows: seq<Event>, i: Issue)
    requires host.data.at.Num?
  {
    || CloseReported(Closings(rows), ResilienceCall, i)
    || (Agreed(Closings(rows))
        && AgreedCallReported(c, requests, steps, source, host, callId, rows, Closings(rows)[0], i))
  }

  method MeasureCall(c: Context, requests: map<RequestKey, int>, steps: Steps, source: nat, host: Event,
      callId: string, rows: seq<Event>)
    returns (call: Option<CallTotal>, issues: set<Issue>)
    requires host.data.at.Timing() && host.data.durationMs.Timing()
    ensures call.Some? <==> Countable(c, requests, steps, source, host, callId, rows)
    ensures call.Some? ==> call.value == TotalFor(c, source, host, rows)
    ensures call.Some? ==>
            CallSound(call.value, host.data.at.x, host.data.durationMs.x)
            && call.value.key == (source, c.show(host.data.requestOrdinal))
    ensures issues == {} <==> CleanCall(c, requests, steps, source, host, callId, rows)
    ensures issues == {} ==> call.Some?
    ensures forall i :: i in issues <==> CallReported(c, requests, steps, source, host, callId, rows, i)
  {
    hide CallBounded, RowKey, Data.Fingerprint, CloseReported;
    var close, closeIssues := OneClose(Closings(rows), ResilienceCall);
    if close.None? {
      return None, closeIssues;
    }
    if LateClose(close.value, host) {
      return None, closeIssues + {LateCall};
    }
    if |CallSteps(steps, callId)| > 1 {
      return None, closeIssues + {DuplicateCallIdentity};
    }
    if !FitsRequest(c, requests, source, host, close.value, rows) {
      return None, closeIssues + {UnboundedCall};
    }
    var key := (source, c.show(close.value.data.requestOrdinal));
    CallBoundedSound(key, close.value.data, host.data, requests[key]);
    call := Some(TotalOf(key, close.value.data));
    issues := closeIssues + if call.value.retired then {RetiredCall} else {};
  }

  lemma SmallSet<T>(s: set<T>)
    requires |s| <= 1
    ensures s == {} || exists x :: s == {x}
  {
    if x :| x in s {
      assert |s - {x}| == 0;
      assert s == {x};
    }
  }

  function TotalOf(key: RequestKey, d: Data): CallTotal {
    CallTotal(key, NumberOf(d.at), NumberOf(d.durationMs), NumberOf(d.attemptCount).Floor,
              NumberOf(d.failedAttemptCount).Floor,
              NumberOf(d.failedAttemptMs), NumberOf(d.retryWaitMs), d.retired == Bool(true),
              d.requestAborted == Bool(true))
  }

  function NumberOf(v: Value): real {
    if v.Num? then v.x else 0.0
  }

  lemma CallBoundedSound(key: RequestKey, total: Data, host: Data, dispatchAt: int)
    requires CallBounded(total, host, dispatchAt) && total.at.x <= host.at.x
    ensures CallSound(TotalOf(key, total), host.at.x, host.durationMs.x) && total.requestOrdinal == host.requestOrdinal
  {
  }

  function Closings(rows: seq<Event>): seq<Event> {
    if rows == [] then []
    else (if rows[0].data.phase == Str("call_finished") then [rows[0]] else []) + Closings(rows[1..])
  }

  // ---------------------------------------------------------------- one host step

  datatype Totals = Totals(
    hostSteps: nat, hostMs: real, calls: nat, callMs: real, attempts: int, failed: int, failedMs: real, waitMs: real,
    retiredCalls: nat, abortedCalls: nat, stepsWithCalls: nat)
  {
    function AddHost(durationMs: real): Totals {
      this.(hostSteps := hostSteps + 1, hostMs := hostMs + durationMs)
    }

    function AddCall(call: CallTotal): Totals {
      this.(calls := calls + 1, callMs := callMs + call.durationMs,
            attempts := attempts + call.attempts, failed := failed + call.failed,
            failedMs := failedMs + call.failedMs, waitMs := waitMs + call.waitMs,
            retiredCalls := retiredCalls + (if call.retired then 1 else 0),
            abortedCalls := abortedCalls + (if call.aborted then 1 else 0))
    }

    predicate Fits() {
      forall x | x in [hostMs, callMs, attempts as real, failed as real, failedMs, waitMs] :: Num(x).Timing()
    }

    /** The relations that every skip and duplicate close preserves. */
    ghost predicate Conserved() {
      && 0 <= failed <= attempts && 0.0 <= failedMs && 0.0 <= waitMs && failedMs + waitMs <= callMs
      && stepsWithCalls <= hostSteps && stepsWithCalls <= calls && retiredCalls <= calls && abortedCalls <= calls
    }
  }

  ghost function AddCalls(t: Totals, calls: seq<CallTotal>): Totals {
    if calls == [] then t else AddCalls(t, calls[..|calls| - 1]).AddCall(calls[|calls| - 1])
  }

  predicate HostBounded(c: Context, owners: map<string, nat>, requests: map<RequestKey, int>, e: Event,
      rows: seq<Event>)
    requires Owners(c, owners) && Accepted(c, owners, e)
  {
    var data := e.data;
    var attempt := data.runAttemptId.s;
    var owner := c.sources[owners[attempt]];
    var bound := owner.attempts[attempt];
    var end := if bound.end.Some? then bound.end else owner.terminalAt;
    && data.at.Timing() && data.durationMs.Timing()
    && data.outcome in {Str("returned"), Str("failed"), Str("cancelled")}
    && RowKey(c, e) in requests && data.requestOrdinal.PositiveSeq().Some?
    && bound.start.Some? && end.Some?
    && data.at.x <= end.value as real && data.at.x - data.durationMs.x >= bound.start.value as real
    && data.at.x - data.durationMs.x <= requests[RowKey(c, e)] as real <= data.at.x
    && e.createdAt.Some? && e.createdAt.value <= end.value
    && forall row | row in rows ::
         row.data.sourceUserSeq == data.sourceUserSeq && row.data.runAttemptId == data.runAttemptId
  }

  type Calls = map<string, seq<Event>>

  /** The call that a row of a step belongs to. */
  function CallKey(): Event -> Option<string> {
    e => if HostClose(e) || !NonBlank(e.data.callId) then None else Some(e.data.callId.s)
  }

  /** What the agreed close of a call adds, under its host step's request. */
  ghost function TotalFor(c: Context, source: nat, host: Event, rows: seq<Event>): CallTotal {
    TotalOf((source, c.show(host.data.requestOrdinal)), (if Closings(rows) == [] then host else Closings(rows)[0]).data)
  }

  lemma AddCallsOne(t: Totals, calls: seq<CallTotal>, call: CallTotal)
    ensures AddCalls(t, calls + [call]) == AddCalls(t, calls).AddCall(call)
  {
  }

  /** `calls` are the totals of the counted calls, in the order in which they
      were visited, each once. */
  ghost predicate Totalled(c: Context, source: nat, host: Event, byCall: Calls, counted: set<string>,
      order: seq<string>,
      calls: seq<CallTotal>) {
    && Lists(order, counted) && counted <= byCall.Keys && |order| == |calls|
    && forall i | 0 <= i < |order| :: calls[i] == TotalFor(c, source, host, byCall[order[i]])
  }

  lemma TotalledNext(c: Context, source: nat, host: Event, byCall: Calls, counted: set<string>, order: seq<string>,
      calls: seq<CallTotal>, id: string)
    requires Totalled(c, source, host, byCall, counted, order, calls) && id in byCall && id !in counted
    ensures Totalled(c, source, host, byCall, counted + {id}, order + [id],
                     calls + [TotalFor(c, source, host, byCall[id])])
  {
    ListsNext(order, counted, id);
    hide Lists, TotalFor;
  }

  /** The calls of `ids` that count, and the totals that they add. */
  ghost predicate Measured(c: Context, requests: map<RequestKey, int>, steps: Steps, source: nat, host: Event,
      byCall: Calls,
                           ids: set<string>, counted: set<string>, calls: seq<CallTotal>)
    requires host.data.at.Timing() && host.data.durationMs.Timing()
  {
    && counted == (set id | id in ids && id in byCall && Countable(c, requests, steps, source, host, id, byCall[id]))
    && (exists order :: Totalled(c, source, host, byCall, counted, order, calls))
    && (forall call | call in calls :: CallSound(call, host.data.at.x, host.data.durationMs.x))
  }

  lemma MeasuredStep(c: Context, requests: map<RequestKey, int>, steps: Steps, source: nat, host: Event, byCall: Calls,
                     ids: set<string>, counted: set<string>, calls: seq<CallTotal>, id: string, call: Option<CallTotal>)
    requires host.data.at.Timing() && host.data.durationMs.Timing()
    requires Measured(c, requests, steps, source, host, byCall, ids, counted, calls)
    requires id in byCall && id !in ids
    requires call.Some? <==> Countable(c, requests, steps, source, host, id, byCall[id])
    requires call.Some? ==>
             call.value == TotalFor(c, source, host, byCall[id])
             && CallSound(call.value, host.data.at.x, host.data.durationMs.x)
    ensures call.None? ==> Measured(c, requests, steps, source, host, byCall, ids + {id}, counted, calls)
    ensures call.Some?
            ==> Measured(c, requests, steps, source, host, byCall, ids + {id}, counted + {id}, calls + [call.value])
  {
    hide Countable, TotalFor, CallSound, Totalled;
    if call.Some? {
      var order :| Totalled(c, source, host, byCall, counted, order, calls);
      TotalledNext(c, source, host, byCall, counted, order, calls, id);
    }
  }

  ghost predicate CleanCalls(c: Context, requests: map<RequestKey, int>, steps: Steps, source: nat, host: Event,
      byCall: Calls, ids: set<string>)
    requires host.data.at.Timing() && host.data.durationMs.Timing()
  {
    forall id | id in ids && id in byCall :: CleanCall(c, requests, steps, source, host, id, byCall[id])
  }

  lemma CleanCallsStep(c: Context, requests: map<RequestKey, int>, steps: Steps, source: nat, host: Event,
      byCall: Calls, ids: set<string>, id: string)
    requires host.data.at.Timing() && host.data.durationMs.Timing() && id in byCall
    ensures CleanCalls(c, requests, steps, source, host, byCall, ids + {id})
            <==> CleanCalls(c, requests, steps, source, host, byCall, ids)
                 && CleanCall(c, requests, steps, source, host, id, byCall[id])
  {
  }

  /** What the loop over the calls of one step knows about the calls `ids`. */
  ghost predicate Progress(c: Context, requests: map<RequestKey, int>, steps: Steps, source: nat, host: Event,
      byCall: Calls, before: Totals,
                           ids: set<string>, counted: set<string>, calls: seq<CallTotal>, t: Totals,
                           observed: set<RequestKey>, clean: bool)
    requires host.data.at.Timing() && host.data.durationMs.Timing()
  {
    && t == AddCalls(before, calls) && Measured(c, requests, steps, source, host, byCall, ids, counted, calls)
    && observed <= {(source, c.show(host.data.requestOrdinal))}
    && (clean <==> CleanCalls(c, requests, steps, source, host, byCall, ids))
    && (calls != [] ==> byCall != map[]) && (clean && ids != {} ==> calls != [])
  }

  lemma ProgressStep(c: Context, requests: map<RequestKey, int>, steps: Steps, source: nat, host: Event, byCall: Calls,
      before: Totals,
                     ids: set<string>, counted: set<string>, calls: seq<CallTotal>, t: Totals,
                     observed: set<RequestKey>, clean: bool,
                     id: string, call: Option<CallTotal>, found: bool)
    requires host.data.at.Timing() && host.data.durationMs.Timing()
    requires Progress(c, requests, steps, source, host, byCall, before, ids, counted, calls, t, observed, clean)
    requires id in byCall && id !in ids
    requires call.Some? <==> Countable(c, requests, steps, source, host, id, byCall[id])
    requires call.Some? ==>
             && call.value == TotalFor(c, source, host, byCall[id])
             && CallSound(call.value, host.data.at.x, host.data.durationMs.x)
                            && call.value.key == (source, c.show(host.data.requestOrdinal))
    requires found ==> call.Some?
    requires found <==> CleanCall(c, requests, steps, source, host, id, byCall[id])
    ensures call.None? ==> Progress(c, requests, steps, source, host, byCall, before,
                                    ids + {id}, counted, calls, t, observed, clean && found)
    ensures call.Some? ==> Progress(c, requests, steps, source, host, byCall, before, ids + {id}, counted + {id},
                                    calls + [call.value],
                                    t.AddCall(call.value), observed + {call.value.key}, clean && found)
  {
    MeasuredStep(c, requests, steps, source, host, byCall, ids, counted, calls, id, call);
    CleanCallsStep(c, requests, steps, source, host, byCall, ids, id);
    if call.Some? {
      AddCallsOne(before, calls, call.value);
    }
    hide Measured, CleanCalls, CleanCall, Countable, TotalFor, CallSound, AddCalls;
  }

  lemma NoCallsYet(c: Context, requests: map<RequestKey, int>, steps: Steps, source: nat, host: Event, byCall: Calls,
      before: Totals)
    requires host.data.at.Timing() && host.data.durationMs.Timing()
    ensures Progress(c, requests, steps, source, host, byCall, before, {}, {}, [], before, {}, true)
  {
    assert Totalled(c, source, host, byCall, {}, [], []);
  }

  /** The reports about the calls `ids` are exactly these. */
  ghost predicate CallsReported(c: Context, requests: map<RequestKey, int>, steps: Steps, source: nat, host: Event,
      byCall: Calls, ids: set<string>, issues: set<Issue>)
    requires host.data.at.Num?
  {
    forall i :: i in issues <==>
      exists id :: id in ids && id in byCall && CallReported(c, requests, steps, source, host, id, byCall[id], i)
  }

  lemma CallsReportedStep(c: Context, requests: map<RequestKey, int>, steps: Steps, source: nat, host: Event,
      byCall: Calls, ids: set<string>, issues: set<Issue>, id: string, found: set<Issue>)
    requires host.data.at.Num? && id in byCall && CallsReported(c, requests, steps, source, host, byCall, ids, issues)
    requires forall i :: i in found <==> CallReported(c, requests, steps, source, host, id, byCall[id], i)
    ensures CallsReported(c, requests, steps, source, host, byCall, ids + {id}, issues + found)
  {
    hide CallReported;
  }

  method MeasureCalls(c: Context, requests: map<RequestKey, int>, steps: Steps, source: nat, host: Event,
      byCall: Calls, before: Totals)
    returns (t: Totals, calls: seq<CallTotal>, observed: set<RequestKey>, issues: set<Issue>,
        ghost counted: set<string>)
    requires host.data.at.Timing() && host.data.durationMs.Timing()
    ensures t == AddCalls(before, calls)
    ensures Measured(c, requests, steps, source, host, byCall, byCall.Keys, counted, calls)
    ensures observed <= {(source, c.show(host.data.requestOrdinal))}
    ensures issues == {} <==> CleanCalls(c, requests, steps, source, host, byCall, byCall.Keys)
    ensures calls != [] ==> byCall != map[]
    ensures issues == {} && byCall != map[] ==> calls != []
    ensures CallsReported(c, requests, steps, source, host, byCall, byCall.Keys, issues)
  {
    hide CallReported, CleanCalls, CleanCall, Countable, Measured, TotalFor, CallSound, AddCalls, Progress;
    t, calls, observed, issues, counted := before, [], {}, {}, {};
    var todo := byCall.Keys;
    assert byCall.Keys - todo == {};
    NoCallsYet(c, requests, steps, source, host, byCall, before);
    while todo != {}
      invariant todo <= byCall.Keys
      invariant Progress(c, requests, steps, source, host, byCall, before, byCall.Keys - todo, counted, calls, t,
                         observed, issues == {})
      invariant CallsReported(c, requests, steps, source, host, byCall, byCall.Keys - todo, issues)
    {
      var id :| id in todo;
      assert byCall.Keys - (todo - {id}) == byCall.Keys - todo + {id};
      var call, found := MeasureCall(c, requests, steps, source, host, id, byCall[id]);
      ProgressStep(c, requests, steps, source, host, byCall, before, byCall.Keys - todo, counted, calls, t, observed,
                   issues == {}, id, call, found == {});
      CallsReportedStep(c, requests, steps, source, host, byCall, byCall.Keys - todo, issues, id, found);
      todo, issues := todo - {id}, issues + found;
      if call.Some? {
        counted := counted + {id};
        t, calls, observed := t.AddCall(call.value), calls + [call.value], observed + {call.value.key};
      }
    }
    assert byCall.Keys - todo == byCall.Keys;
    AllMeasured(c, requests, steps, source, host, byCall, before, counted, calls, t, observed, issues == {});
  }

  lemma AllMeasured(c: Context, requests: map<RequestKey, int>, steps: Steps, source: nat, host: Event, byCall: Calls,
      before: Totals,
                    counted: set<string>, calls: seq<CallTotal>, t: Totals, observed: set<RequestKey>, clean: bool)
    requires host.data.at.Timing() && host.data.durationMs.Timing()
    requires Progress(c, requests, steps, source, host, byCall, before, byCall.Keys, counted, calls, t, observed, clean)
    ensures t == AddCalls(before, calls)
        && Measured(c, requests, steps, source, host, byCall, byCall.Keys, counted, calls)
    ensures observed <= {(source, c.show(host.data.requestOrdinal))}
    ensures clean <==> CleanCalls(c, requests, steps, source, host, byCall, byCall.Keys)
    ensures (calls != [] ==> byCall != map[]) && (clean && byCall != map[] ==> calls != [])
  {
  }

  /** A counted host step, with the calls counted inside it. */
  datatype Step = Step(id: string, host: Event, byCall: Calls, counted: set<string>, calls: seq<CallTotal>)
  {
    /** The step's calls are exactly its countable ones, each within the interval
        of the host step. */
    ghost predicate Sound(c: Context, requests: map<RequestKey, int>, steps: Steps) {
      && id in steps && host.data.at.Timing() && host.data.durationMs.Timing()
      && Grouped(steps[id], CallKey(), byCall)
      && Measured(c, requests, steps, RowKey(c, host).0, host, byCall, byCall.Keys, counted, calls)
    }
  }

  ghost function AddStep(t: Totals, step: Step): Totals {
    var added := AddCalls(t.AddHost(NumberOf(step.host.data.durationMs)), step.calls);
    if step.calls == [] then added else added.(stepsWithCalls := added.stepsWithCalls + 1)
  }

  lemma {:induction false} AddCallsConserves(t: Totals, calls: seq<CallTotal>, at: real, durationMs: real)
    requires t.Conserved() && forall call | call in calls :: CallSound(call, at, durationMs)
    ensures AddCalls(t, calls).Conserved()
    ensures AddCalls(t, calls).hostSteps == t.hostSteps && AddCalls(t, calls).stepsWithCalls == t.stepsWithCalls
    ensures AddCalls(t, calls).calls == t.calls + |calls|
  {
    if calls != [] {
      AddCallsConserves(t, calls[..|calls| - 1], at, durationMs);
      assert CallSound(calls[|calls| - 1], at, durationMs);
    }
  }

  lemma AddStepConserves(c: Context, requests: map<RequestKey, int>, steps: Steps, t: Totals, step: Step)
    requires t.Conserved() && step.Sound(c, requests, steps)
    ensures AddStep(t, step).Conserved()
    ensures AddStep(t, step).hostSteps == t.hostSteps + 1
    ensures AddStep(t, step).stepsWithCalls == t.stepsWithCalls + if step.calls == [] then 0 else 1
  {
    AddCallsConserves(t.AddHost(NumberOf(step.host.data.durationMs)), step.calls, step.host.data.at.x,
                      step.host.data.durationMs.x);
    hide AddCalls, CallSound;
  }

  /** The steps that enter the totals: one agreed close, the only one of its
      request, inside its attempt and around its request's dispatch. */
  ghost predicate CountableStep(c: Context, owners: map<string, nat>, requests: map<RequestKey, int>, steps: Steps,
      k: string)
    requires Owners(c, owners) && k in steps
  {
    var closing := HostCloses(steps[k]);
    && Agreed(closing)
    && |HostSteps(c, steps, RowKey(c, closing[0]))| <= 1
    && Accepted(c, owners, closing[0]) && HostBounded(c, owners, requests, closing[0], steps[k])
  }

  /** A countable step whose request is known and has no other host step. */
  ghost predicate OwnStep(c: Context, owners: map<string, nat>, requests: map<RequestKey, int>, steps: Steps,
      step: Step) {
    && Owners(c, owners) && step.id in steps && CountableStep(c, owners, requests, steps, step.id)
    && step.host == HostCloses(steps[step.id])[0]
    && RowKey(c, step.host) in requests && HostSteps(c, steps, RowKey(c, step.host)) == {step.id}
  }

  /** The step made at least one call, and all its calls are identified and clean. */
  ghost predicate CallsClean(c: Context, requests: map<RequestKey, int>, steps: Steps, rows: seq<Event>, host: Event)
    requires host.data.at.Timing() && host.data.durationMs.Timing()
  {
    && (forall row | row in rows :: HostClose(row) || CallKey()(row).Some?)
    && (exists row :: row in rows && CallKey()(row).Some?)
    && forall row | row in rows && CallKey()(row).Some? ::
         var id := CallKey()(row).value;
         CleanCall(c, requests, steps, RowKey(c, host).0, host, id, Members(rows, CallKey(), id))
  }

  /** A countable step that closed once, was not retired, and whose calls are clean. */
  ghost predicate CleanStep(c: Context, owners: map<string, nat>, requests: map<RequestKey, int>, steps: Steps,
      k: string)
    requires Owners(c, owners) && k in steps
  {
    && CountableStep(c, owners, requests, steps, k) && |HostCloses(steps[k])| == 1
    && HostCloses(steps[k])[0].data.retired != Bool(true)
    && CallsClean(c, requests, steps, steps[k], HostCloses(steps[k])[0])
  }

  lemma CallsCleanMeans(c: Context, requests: map<RequestKey, int>, steps: Steps, rows: seq<Event>, host: Event,
      byCall: Calls)
    requires Grouped(rows, CallKey(), byCall) && host.data.at.Timing() && host.data.durationMs.Timing()
    ensures CallsClean(c, requests, steps, rows, host) <==>
              && (forall row | row in rows :: HostClose(row) || NonBlank(row.data.callId))
              && byCall != map[] && CleanCalls(c, requests, steps, RowKey(c, host).0, host, byCall, byCall.Keys)
  {
    CallGroups(rows, byCall);
    hide CleanCall, RowKey, Members, Grouped;
  }

  lemma CallGroups(rows: seq<Event>, byCall: Calls)
    requires Grouped(rows, CallKey(), byCall)
    ensures forall id | id in byCall ::
              byCall[id] == Members(rows, CallKey(), id) && exists row :: row in rows && CallKey()(row) == Some(id)
    ensures forall row | row in rows && CallKey()(row).Some? :: CallKey()(row).value in byCall
    ensures byCall != map[] <==> exists row :: row in rows && CallKey()(row).Some?
  {
    GroupsAre(rows, CallKey(), byCall);
    hide CallKey;
    forall id | id in byCall
      ensures byCall[id] == Members(rows, CallKey(), id) && exists row :: row in rows && CallKey()(row) == Some(id) {
      assert GroupOf(byCall, id) == Members(rows, CallKey(), id);
      var row := byCall[id][0];
      assert row in byCall[id];
      assert row in rows && CallKey()(row) == Some(id);
    }
    if byCall != map[] {
      var id :| id in byCall;
    }
  }

  ghost predicate CalledIn(rows: seq<Event>, id: string) {
    exists row :: row in rows && CallKey()(row) == Some(id)
  }

  /** What the calls of a counted step are reported for. */
  ghost predicate StepCallsReported(c: Context, requests: map<RequestKey, int>, steps: Steps, rows: seq<Event>,
      host: Event,
      i: Issue)
    requires host.data.at.Timing() && host.data.durationMs.Timing()
  {
    || (exists id :: CalledIn(rows, id)
                     && CallReported(c, requests, steps, RowKey(c, host).0, host, id, Members(rows, CallKey(), id), i))
    || (i == InvalidCallIdentity && exists row :: row in rows && !HostClose(row) && CallKey()(row).None?)
    || (i == StepWithoutCalls && forall id | CalledIn(rows, id) ::
          !Countable(c, requests, steps, RowKey(c, host).0, host, id, Members(rows, CallKey(), id)))
  }

  lemma CalledGroups(rows: seq<Event>, byCall: Calls)
    requires Grouped(rows, CallKey(), byCall)
    ensures forall id :: id in byCall <==> CalledIn(rows, id)
    ensures forall id | id in byCall :: byCall[id] == Members(rows, CallKey(), id)
  {
    CallGroups(rows, byCall);
    hide CallKey, Members, Grouped;
  }

  lemma ReportedCalls(c: Context, requests: map<RequestKey, int>, steps: Steps, rows: seq<Event>, source: nat,
      host: Event,
      byCall: Calls, issues: set<Issue>, i: Issue)
    requires Grouped(rows, CallKey(), byCall) && host.data.at.Num?
    requires CallsReported(c, requests, steps, source, host, byCall, byCall.Keys, issues)
    ensures i in issues
            <==> exists id ::
                   CalledIn(rows, id)
                   && CallReported(c, requests, steps, source, host, id, Members(rows, CallKey(), id), i)
  {
    CalledGroups(rows, byCall);
    hide CallReported, CallKey, Members, Grouped, CalledIn;
    if i in issues {
      var id :| id in byCall && CallReported(c, requests, steps, source, host, id, byCall[id], i);
      assert CalledIn(rows, id);
    }
  }

  lemma NoneCounted(c: Context, requests: map<RequestKey, int>, steps: Steps, rows: seq<Event>, source: nat,
      host: Event,
      byCall: Calls, counted: set<string>, calls: seq<CallTotal>)
    requires Grouped(rows, CallKey(), byCall) && host.data.at.Timing() && host.data.durationMs.Timing()
    requires Measured(c, requests, steps, source, host, byCall, byCall.Keys, counted, calls)
    ensures calls == []
            <==> forall id | CalledIn(rows, id) ::
                   !Countable(c, requests, steps, source, host, id, Members(rows, CallKey(), id))
  {
    CalledGroups(rows, byCall);
    hide Countable, CallSound, CallKey, Members, Grouped, CalledIn, TotalFor;
    var order :| Totalled(c, source, host, byCall, counted, order, calls);
    ListsSize(order, counted);
    assert |calls| == |counted|;
    hide Totalled;
    if calls == [] {
      forall id | CalledIn(rows, id)
        ensures !Countable(c, requests, steps, source, host, id, Members(rows, CallKey(), id)) {
        assert id in byCall && id !in counted;
      }
    } else {
      var id :| id in counted;
    }
  }

  lemma StepCallsMean(c: Context, requests: map<RequestKey, int>, steps: Steps, rows: seq<Event>, host: Event,
      byCall: Calls, counted: set<string>, calls: seq<CallTotal>, issues: set<Issue>, i: Issue)
    requires Grouped(rows, CallKey(), byCall) && host.data.at.Timing() && host.data.durationMs.Timing()
    requires CallsReported(c, requests, steps, RowKey(c, host).0, host, byCall, byCall.Keys, issues)
    requires Measured(c, requests, steps, RowKey(c, host).0, host, byCall, byCall.Keys, counted, calls)
    ensures StepCallsReported(c, requests, steps, rows, host, i)
            <==> || i in issues
                 || (i == InvalidCallIdentity && exists row :: row in rows && !HostClose(row) && CallKey()(row).None?)
                 || (i == StepWithoutCalls && calls == [])
  {
    ReportedCalls(c, requests, steps, rows, RowKey(c, host).0, host, byCall, issues, i);
    NoneCounted(c, requests, steps, rows, RowKey(c, host).0, host, byCall, counted, calls);
    hide Countable, CallReported, CallSound, RowKey, Members, Grouped, CallKey, HostClose, CalledIn, CallsReported,
    Measured;
  }

  lemma NoCallIdentity(rows: seq<Event>)
    ensures forall row :: CallKey()(row).None? <==> HostClose(row) || !NonBlank(row.data.callId)
  {
  }

  /** The totals of a counted step's calls. */
  method MeasureStepCalls(c: Context, requests: map<RequestKey, int>, steps: Steps, k: string, host: Event,
      before: Totals)
    returns (t: Totals, callKeys: set<RequestKey>, issues: set<Issue>, ghost step: Step)
    requires k in steps && host.data.at.Timing() && host.data.durationMs.Timing()
    ensures step.id == k && step.host == host && step.Sound(c, requests, steps) && t == AddStep(before, step)
    ensures callKeys <= {(RowKey(c, host).0, c.show(host.data.requestOrdinal))}
    ensures issues == {} <==> CallsClean(c, requests, steps, steps[k], host)
    ensures issues == {} ==> step.calls != []
    ensures forall i :: i in issues <==> StepCallsReported(c, requests, steps, steps[k], host, i)
  {
    hide CallsReported, CallReported, Countable, AddCalls, CallSound, Measured, Grouped, CallsClean, CleanCalls, RowKey;
    var rows := steps[k];
    var byCall := Group(rows, CallKey());
    CallsCleanMeans(c, requests, steps, rows, host, byCall);
    var calls;
    ghost var counted;
    t, calls, callKeys, issues, counted := MeasureCalls(c, requests, steps, RowKey(c, host).0, host, byCall,
                                                        before.AddHost(host.data.durationMs.x));
    forall i {
      StepCallsMean(c, requests, steps, rows, host, byCall, counted, calls, issues, i);
    }
    NoCallIdentity(rows);
    hide CallKey, Members, StepCallsReported;
    if exists row :: row in rows && !HostClose(row) && !NonBlank(row.data.callId) {
      issues := issues + {InvalidCallIdentity};
    }
    if calls != [] {
      t := t.(stepsWithCalls := t.stepsWithCalls + 1);
    } else {
      issues := issues + {StepWithoutCalls};
    }
    step := Step(k, host, byCall, counted, calls);
  }

  /** What one step is reported for: its closes, the first check that its agreed
      close fails, or its retirement and its calls. */
  ghost predicate StepReported(c: Context, owners: map<string, nat>, requests: map<RequestKey, int>, steps: Steps,
      k: string,
      i: Issue)
    requires Owners(c, owners) && k in steps
  {
    var closing := HostCloses(steps[k]);
    || CloseReported(closing, HostStep, i)
    || (Agreed(closing) && AgreedStepReported(c, owners, requests, steps, steps[k], closing[0], i))
  }

  ghost predicate AgreedStepReported(c: Context, owners: map<string, nat>, requests: map<RequestKey, int>, steps: Steps,
      rows: seq<Event>, host: Event, i: Issue)
    requires Owners(c, owners)
  {
    if |HostSteps(c, steps, RowKey(c, host))| > 1 then i == DuplicateHostRequest
    else if !(Accepted(c, owners, host) && HostBounded(c, owners, requests, host, rows)) then i == UnboundedHostStep
    else (i == RetiredHostStep && host.data.retired == Bool(true))
         || StepCallsReported(c, requests, steps, rows, host, i)
  }

  method MeasureStep(c: Context, owners: map<string, nat>, requests: map<RequestKey, int>, steps: Steps, k: string,
      before: Totals)
    returns (t: Totals, observed: set<RequestKey>, sources: set<nat>, issues: set<Issue>, ghost step: Option<Step>)
    requires Owners(c, owners) && k in steps
    requires forall e | e in steps[k] :: Accepted(c, owners, e)
    ensures step.Some? <==> CountableStep(c, owners, requests, steps, k)
    ensures observed == if CountableStep(c, owners, requests, steps, k) then {RowKey(c, HostCloses(steps[k])[0])}
            else {}
    ensures sources == if CountableStep(c, owners, requests, steps, k) then {OwnerOf(owners, HostCloses(steps[k])[0])}
            else {}
    ensures step.None? ==> t == before
    ensures step.Some? ==>
            && step.value.id == k && step.value.Sound(c, requests, steps) && step.value.host == HostCloses(steps[k])[0]
                           && t == AddStep(before, step.value)
                           && OwnStep(c, owners, requests, steps, step.value)
    ensures issues == {} <==> CleanStep(c, owners, requests, steps, k)
    ensures issues == {} ==> step.Some? && step.value.calls != []
    ensures forall i :: i in issues <==> StepReported(c, owners, requests, steps, k, i)
  {
    hide CloseReported, StepCallsReported, Accepted, CallsClean, AddStep, Step.Sound, Data.Fingerprint, HostBounded;
    var rows := steps[k];
    var host, closeIssues := OneClose(HostCloses(rows), HostStep);
    if host.None? {
      return before, {}, {}, closeIssues, None;
    }
    HostClosesAre(rows);
    var e := host.value;
    var key := RowKey(c, e);
    ClosesItsRequest(c, steps, k, e);
    if |HostSteps(c, steps, key)| > 1 {
      return before, {}, {}, closeIssues + {DuplicateHostRequest}, None;
    }
    SmallSet(HostSteps(c, steps, key));
    if !HostBounded(c, owners, requests, e, rows) {
      return before, {}, {}, closeIssues + {UnboundedHostStep}, None;
    }
    BoundedHost(c, owners, requests, e, rows);
    var callKeys, callIssues;
    ghost var counted;
    t, callKeys, callIssues, counted := MeasureStepCalls(c, requests, steps, k, e, before);
    issues := closeIssues + callIssues + if e.data.retired == Bool(true) then {RetiredHostStep} else {};
    observed, sources, step := {key} + callKeys, {OwnerOf(owners, e)}, Some(counted);
  }

  lemma BoundedHost(c: Context, owners: map<string, nat>, requests: map<RequestKey, int>, e: Event, rows: seq<Event>)
    requires Owners(c, owners) && Accepted(c, owners, e) && HostBounded(c, owners, requests, e, rows)
    ensures e.data.at.Timing() && e.data.durationMs.Timing() && RowKey(c, e) in requests
    ensures RowKey(c, e) == (RowKey(c, e).0, c.show(e.data.requestOrdinal))
  {
  }

  /** The source whose attempt produced the row. */
  function OwnerOf(owners: map<string, nat>, e: Event): nat {
    if e.data.runAttemptId.Str? && e.data.runAttemptId.s in owners then owners[e.data.runAttemptId.s] else 0
  }

  function HostCloses(rows: seq<Event>): seq<Event> {
    if rows == [] then [] else (if HostClose(rows[0]) then [rows[0]] else []) + HostCloses(rows[1..])
  }

  lemma {:induction false} HostClosesAre(rows: seq<Event>)
    ensures forall e :: e in HostCloses(rows) <==> e in rows && HostClose(e)
  {
    if rows != [] {
      HostClosesAre(rows[1..]);
    }
  }

  lemma ClosesItsRequest(c: Context, steps: Steps, k: string, e: Event)
    requires k in steps && e in steps[k] && HostClose(e)
    ensures k in HostSteps(c, steps, RowKey(c, e))
  {
  }

  // ---------------------------------------------------------------- the whole task

  const NO_TOTALS := Totals(0, 0.0, 0, 0.0, 0, 0, 0.0, 0.0, 0, 0, 0)

  ghost function AddSteps(trail: seq<Step>): Totals {
    if trail == [] then NO_TOTALS else AddStep(AddSteps(trail[..|trail| - 1]), trail[|trail| - 1])
  }

  ghost function KeysOf(c: Context, trail: seq<Step>): set<RequestKey> {
    set step | step in trail :: RowKey(c, step.host)
  }

  /** The counted steps are the countable ones of `ids`, each once, and no two
      of them answer the same request. */
  ghost predicate Audited(c: Context, owners: map<string, nat>, requests: map<RequestKey, int>, steps: Steps,
      ids: set<string>, trail: seq<Step>)
  {
    && Owners(c, owners) && ids <= steps.Keys
    && (forall step | step in trail ::
          step.id in ids && step.Sound(c, requests, steps) && OwnStep(c, owners, requests, steps, step))
    && (forall k | k in ids && CountableStep(c, owners, requests, steps, k) ::
          exists step :: step in trail && step.id == k)
    && (forall i, j | 0 <= i < j < |trail| :: trail[i].id != trail[j].id)
    && |KeysOf(c, trail)| == |trail|
  }

  lemma KeysStep(c: Context, trail: seq<Step>, step: Step)
    ensures KeysOf(c, trail + [step]) == KeysOf(c, trail) + {RowKey(c, step.host)}
  {
  }

  lemma KeyIsIn(c: Context, trail: seq<Step>, key: RequestKey)
    ensures key in KeysOf(c, trail) <==> exists step :: step in trail && RowKey(c, step.host) == key
  {
  }

  lemma OneStepPerRequest(c: Context, owners: map<string, nat>, requests: map<RequestKey, int>, steps: Steps, a: Step,
      b: Step)
    requires OwnStep(c, owners, requests, steps, a) && OwnStep(c, owners, requests, steps, b)
    requires RowKey(c, a.host) == RowKey(c, b.host)
    ensures a.id == b.id
  {
  }

  lemma AuditStep(c: Context, owners: map<string, nat>, requests: map<RequestKey, int>, steps: Steps, ids: set<string>,
      trail: seq<Step>, step: Step)
    requires Audited(c, owners, requests, steps, ids, trail)
    requires step.id in steps && step.id !in ids && step.Sound(c, requests, steps)
        && OwnStep(c, owners, requests, steps, step)
    ensures Audited(c, owners, requests, steps, ids + {step.id}, trail + [step])
  {
    hide CountableStep, Step.Sound, OwnStep, KeysOf;
    KeysStep(c, trail, step);
    if other :| other in trail && RowKey(c, other.host) == RowKey(c, step.host) {
      OneStepPerRequest(c, owners, requests, steps, other, step);
    }
    KeyIsIn(c, trail, RowKey(c, step.host));
    assert step in trail + [step];
    assert forall x | x in trail :: x in trail + [step];
  }

  lemma AuditSkip(c: Context, owners: map<string, nat>, requests: map<RequestKey, int>, steps: Steps, ids: set<string>,
      trail: seq<Step>, k: string)
    requires Audited(c, owners, requests, steps, ids, trail)
    requires Owners(c, owners) && k in steps && !CountableStep(c, owners, requests, steps, k)
    ensures Audited(c, owners, requests, steps, ids + {k}, trail)
  {
    hide CountableStep, Step.Sound, OwnStep;
  }

  lemma {:induction false} AddStepsConserves(c: Context, requests: map<RequestKey, int>, steps: Steps, trail: seq<Step>)
    requires forall step | step in trail :: step.Sound(c, requests, steps)
    ensures AddSteps(trail).Conserved() && AddSteps(trail).hostSteps == |trail|
    ensures (forall step | step in trail :: step.calls != []) ==> AddSteps(trail).stepsWithCalls == |trail|
    ensures AddSteps(trail).stepsWithCalls <= AddSteps(trail).calls
  {
    if trail != [] {
      var init, last := trail[..|trail| - 1], trail[|trail| - 1];
      assert trail == init + [last];
      AddStepsConserves(c, requests, steps, init);
      AddStepConserves(c, requests, steps, AddSteps(init), last);
      hide AddStep, Step.Sound;
    }
  }

  ghost function OwnersOf(owners: map<string, nat>, trail: seq<Step>): set<nat> {
    set step | step in trail :: OwnerOf(owners, step.host)
  }

  lemma OwnersStep(owners: map<string, nat>, trail: seq<Step>, step: Step)
    ensures OwnersOf(owners, trail + [step]) == OwnersOf(owners, trail) + {OwnerOf(owners, step.host)}
    ensures forall x :: x in trail + [step] <==> x in trail || x == step
  {
  }

  lemma AddStepsOne(trail: seq<Step>, step: Step)
    ensures AddSteps(trail + [step]) == AddStep(AddSteps(trail), step)
  {
  }

  lemma NothingAudited(c: Context, owners: map<string, nat>, requests: map<RequestKey, int>, steps: Steps)
    requires Owners(c, owners)
    ensures AddSteps([]) == NO_TOTALS && Audited(c, owners, requests, steps, {}, []) && KeysOf(c, []) == {}
        && OwnersOf(owners, []) == {}
    ensures StepsReported(c, owners, requests, steps, {}, {})
  {
  }

  /** The reports about the steps `ids` are exactly these. */
  ghost predicate StepsReported(c: Context, owners: map<string, nat>, requests: map<RequestKey, int>, steps: Steps,
      ids: set<string>, issues: set<Issue>)
    requires Owners(c, owners)
  {
    forall i :: i in issues <==> exists k :: k in ids && k in steps && StepReported(c, owners, requests, steps, k, i)
  }

  lemma StepsReportedStep(c: Context, owners: map<string, nat>, requests: map<RequestKey, int>, steps: Steps,
      ids: set<string>, issues: set<Issue>, k: string, found: set<Issue>)
    requires Owners(c, owners) && k in steps && StepsReported(c, owners, requests, steps, ids, issues)
    requires forall i :: i in found <==> StepReported(c, owners, requests, steps, k, i)
    ensures StepsReported(c, owners, requests, steps, ids + {k}, issues + found)
  {
    hide StepReported, Owners;
  }

  method MeasureSteps(c: Context, owners: map<string, nat>, requests: map<RequestKey, int>, steps: Steps)
    returns (t: Totals, observed: set<RequestKey>, sources: set<nat>, issues: set<Issue>, ghost trail: seq<Step>)
    requires Owners(c, owners)
    requires forall k, e | k in steps && e in steps[k] :: Accepted(c, owners, e)
    ensures t == AddSteps(trail) && observed == KeysOf(c, trail) && sources == OwnersOf(owners, trail)
    ensures Audited(c, owners, requests, steps, steps.Keys, trail)
    ensures issues == {} <==> forall k | k in steps :: CleanStep(c, owners, requests, steps, k)
    ensures issues == {} ==> |trail| == |steps| && forall step | step in trail :: step.calls != []
    ensures StepsReported(c, owners, requests, steps, steps.Keys, issues)
  {
    hide *;
    t, observed, sources, issues, trail := NO_TOTALS, {}, {}, {}, [];
    var todo := steps.Keys;
    assert steps.Keys - todo == {};
    NothingAudited(c, owners, requests, steps);
    while todo != {}
      invariant todo <= steps.Keys
      invariant t == AddSteps(trail) && observed == KeysOf(c, trail) && sources == OwnersOf(owners, trail)
      invariant Audited(c, owners, requests, steps, steps.Keys - todo, trail)
      invariant StepsReported(c, owners, requests, steps, steps.Keys - todo, issues)
      invariant issues == {} <==> forall k | k in steps && k !in todo :: CleanStep(c, owners, requests, steps, k)
      invariant issues == {} ==> |trail| + |todo| == |steps.Keys| && forall step | step in trail :: step.calls != []
    {
      var k :| k in todo;
      assert steps.Keys - (todo - {k}) == steps.Keys - todo + {k};
      var keys, owned, found;
      ghost var step;
      ghost var before := t;
      t, keys, owned, found, step := MeasureStep(c, owners, requests, steps, k, t);
      StepsReportedStep(c, owners, requests, steps, steps.Keys - todo, issues, k, found);
      if step.Some? {
        AuditStep(c, owners, requests, steps, steps.Keys - todo, trail, step.value);
        AddStepsOne(trail, step.value);
        KeysStep(c, trail, step.value);
        OwnersStep(owners, trail, step.value);
        trail := trail + [step.value];
      } else {
        AuditSkip(c, owners, requests, steps, steps.Keys - todo, trail, k);
        assert observed + keys == observed && sources + owned == sources;
      }
      observed, sources, issues, todo := observed + keys, sources + owned, issues + found, todo - {k};
    }
    assert steps.Keys - todo == steps.Keys;
  }

  datatype Coverage = Nothing | Partial | Observed

  datatype Measurement = Measurement(
    coverage: Coverage, attemptCoverage: Coverage, provenanceRequests: Option<nat>, observedRequests: nat,
    observedHostSteps: nat,
    calls: nat, hostMs: Option<real>, callMs: Option<real>, attempts: Option<int>, failed: Option<int>,
    failedMs: Option<real>,
    waitMs: Option<real>, retiredCalls: nat, abortedCalls: nat)
  {
    /** Failed attempts and waits are part of the calls they belong to. */
    ghost predicate Conserved() {
      && (callMs.Some? ==> failedMs.Some? && waitMs.Some? && attempts.Some? && failed.Some?)
      && (callMs.Some? ==> failedMs.value + waitMs.value <= callMs.value && 0 <= failed.value <= attempts.value)
    }

    /** The reported sums are those of the counted steps, and a sum is reported
        exactly when something was counted and no sum overflowed. */
    ghost predicate Reports(t: Totals) {
      && observedHostSteps == t.hostSteps && calls == t.calls && retiredCalls == t.retiredCalls
      && abortedCalls == t.abortedCalls
      && hostMs == (if t.hostSteps > 0 && t.Fits() then Some(t.hostMs) else None)
      && (if calls > 0 && t.Fits() then
            callMs == Some(t.callMs) && attempts == Some(t.attempts) && failed == Some(t.failed)
                && failedMs == Some(t.failedMs) && waitMs == Some(t.waitMs)
          else callMs == None && attempts == None && failed == None && failedMs == None && waitMs == None)
    }
  }

  ghost predicate SourceReported(sources: set<nat>, observed: set<nat>, i: Issue) {
    exists n :: n in sources && n !in observed && i == SourceUnobserved(n)
  }

  /** What one measurement rests on. */
  datatype Evidence = Evidence(requests: map<RequestKey, int>, owners: map<string, nat>, steps: Steps, trail: seq<Step>)
  {
    /** The exact condition of full coverage: provenance, sources, events and steps
        are all free of issues, every source has a counted step and every request
        was observed. */
    ghost predicate Clean(c: Context, provenance: Option<seq<Provenance>>, events: seq<Event>) {
      && Owners(c, owners)
      && provenance.Some? && AllSole(c, provenance.value) && steps != map[]
      && (forall n | n in c.sources :: c.sources[n].unfinished == 0 && n in OwnersOf(owners, trail))
      && (forall e | e in events && InScope(c, e) :: Accepted(c, owners, e))
      && (forall k | k in steps :: CleanStep(c, owners, requests, steps, k))
      && KeysOf(c, trail) == requests.Keys
    }

    /** What is reported of single rows, sources, events and steps. */
    ghost predicate PartReported(c: Context, rows: seq<Provenance>, events: seq<Event>, i: Issue)
      requires Owners(c, owners)
    {
      || (exists n :: 0 <= n < |rows| && ProvenanceReported(c, rows, n, i))
      || UnfinishedReported(c, i)
      || (i == UnprovedOwner && exists e :: e in events && InScope(c, e) && !Accepted(c, owners, e))
      || (exists k :: k in steps && StepReported(c, owners, requests, steps, k, i))
    }

    /** What the measurement is reported for: its parts, what is missing from the
        whole, and an overflow. */
    ghost predicate Reported(c: Context, provenance: Option<seq<Provenance>>, events: seq<Event>, i: Issue)
      requires Owners(c, owners)
    {
      || PartReported(c, provenance.GetOr([]), events, i)
      || (i == ProvenanceUnavailable && provenance.None?)
      || (i == TimingUnavailable && trail == [])
      || SourceReported(c.sources.Keys, OwnersOf(owners, trail), i)
      || (i == PartialRequests && provenance.Some? && KeysOf(c, trail) != requests.Keys)
      || (i == SumOverflow && !AddSteps(trail).Fits())
    }

    /** Requests and host steps correspond one to one, every step has a counted
        call, and every source, attempt and event is accounted for. */
    ghost predicate Complete(c: Context, events: seq<Event>) {
      && Owners(c, owners) && KeysOf(c, trail) == requests.Keys && |requests| == |steps|
      && (forall k | k in steps :: CountableStep(c, owners, requests, steps, k))
      && (forall key | key in requests :: exists k :: HostSteps(c, steps, key) == {k})
      && (forall step | step in trail :: step.calls != [])
      && (forall n | n in c.sources ::
            c.sources[n].unfinished == 0 && exists step :: step in trail && OwnerOf(owners, step.host) == n)
      && (forall e | e in events && InScope(c, e) :: Accepted(c, owners, e))
    }
  }

  function Report(t: Totals, provenanceRequests: Option<nat>, observedRequests: nat, clean: bool): (m: Measurement)
    ensures m.Reports(t) && m.provenanceRequests == provenanceRequests && m.observedRequests == observedRequests
    ensures m.observedHostSteps == t.hostSteps
    ensures t.Conserved() ==> m.Conserved()
    ensures m.coverage == Observed <==> t.hostSteps > 0 && clean && t.Fits()
    ensures m.attemptCoverage == Observed <==> t.calls > 0 && clean && t.Fits() && t.stepsWithCalls >= t.hostSteps
    ensures m.coverage == Nothing <==> t.hostSteps == 0 && t.Fits()
    ensures m.attemptCoverage == Nothing <==> t.calls == 0 && t.Fits()
  {
    if !t.Fits() then
      Measurement(Partial, Partial, provenanceRequests, observedRequests, t.hostSteps, t.calls, None, None, None, None,
                  None, None,
                  t.retiredCalls, t.abortedCalls)
    else
      var any := t.calls > 0;
      Measurement(
        if t.hostSteps == 0 then Nothing else if clean then Observed else Partial,
        if !any then Nothing else if clean && t.stepsWithCalls >= t.hostSteps then Observed else Partial,
        provenanceRequests, observedRequests, t.hostSteps, t.calls,
        if t.hostSteps > 0 then Some(t.hostMs) else None,
        if any then Some(t.callMs) else None, if any then Some(t.attempts) else None,
        if any then Some(t.failed) else None,
        if any then Some(t.failedMs) else None, if any then Some(t.waitMs) else None, t.retiredCalls, t.abortedCalls)
  }

  lemma StepsAccepted(c: Context, owners: map<string, nat>, events: seq<Event>, steps: Steps)
    requires Grouped(events, StepKey(c, owners), steps)
    ensures forall k, e | k in steps && e in steps[k] :: Accepted(c, owners, e)
  {
    GroupsAre(events, StepKey(c, owners), steps);
    forall k, e | k in steps && e in steps[k] ensures Accepted(c, owners, e) {
      assert StepKey(c, owners)(e) == Some(k);
    }
  }

  ghost function IdsOf(trail: seq<Step>): set<string> {
    set step | step in trail :: step.id
  }

  lemma {:induction false} DistinctIds(trail: seq<Step>)
    requires forall i, j | 0 <= i < j < |trail| :: trail[i].id != trail[j].id
    ensures |IdsOf(trail)| == |trail|
  {
    if trail != [] {
      var init, last := trail[..|trail| - 1], trail[|trail| - 1];
      DistinctIds(init);
      assert trail == init + [last];
      assert IdsOf(trail) == IdsOf(init) + {last.id};
    }
  }

  lemma SubsetOfSameSize<T>(a: set<T>, b: set<T>)
    requires a <= b && |a| >= |b|
    ensures a == b
  {
    assert b == a + (b - a);
  }

  /** What the audited steps say about the totals and the requests. */
  lemma AuditTotals(c: Context, owners: map<string, nat>, requests: map<RequestKey, int>, steps: Steps,
      trail: seq<Step>)
    requires Audited(c, owners, requests, steps, steps.Keys, trail)
    ensures AddSteps(trail).Conserved() && AddSteps(trail).hostSteps == |trail| == |KeysOf(c, trail)|
    ensures KeysOf(c, trail) <= requests.Keys && AddSteps(trail).stepsWithCalls <= AddSteps(trail).calls
    ensures Owners(c, owners) && |trail| == |steps| ==> forall k | k in steps ::
                                                          CountableStep(c, owners, requests, steps, k)
    ensures forall key | key in KeysOf(c, trail) :: exists k :: HostSteps(c, steps, key) == {k}
    ensures (forall step | step in trail :: step.calls != []) ==> AddSteps(trail).stepsWithCalls == |trail|
  {
    hide Step.Sound, CountableStep, HostSteps, AddSteps, Totals.Conserved;
    AddStepsConserves(c, requests, steps, trail);
    DistinctIds(trail);
    if |trail| == |steps| {
      SubsetOfSameSize(IdsOf(trail), steps.Keys);
      forall k | k in steps ensures CountableStep(c, owners, requests, steps, k) {
        assert k in IdsOf(trail);
      }
    }
  }

  lemma CompleteWhenClean(c: Context, events: seq<Event>, proof: Evidence)
    requires Owners(c, proof.owners)
    requires Audited(c, proof.owners, proof.requests, proof.steps, proof.steps.Keys, proof.trail)
    requires KeysOf(c, proof.trail) == proof.requests.Keys && |proof.trail| == |proof.steps|
    requires forall step | step in proof.trail :: step.calls != []
    requires forall n | n in c.sources :: c.sources[n].unfinished == 0 && n in OwnersOf(proof.owners, proof.trail)
    requires forall e | e in events && InScope(c, e) :: Accepted(c, proof.owners, e)
    ensures proof.Complete(c, events)
  {
    hide Audited, CountableStep, HostSteps, Accepted, InScope, Owners, AddSteps, Totals.Conserved, KeysOf, OwnerOf,
    Step.Sound;
    AuditTotals(c, proof.owners, proof.requests, proof.steps, proof.trail);
  }

  method MeasureModelTiming(c: Context, provenance: Option<seq<Provenance>>, events: seq<Event>)
    returns (m: Measurement, issues: set<Issue>, ghost proof: Evidence)
    ensures RequestsRead(c, provenance.GetOr([]), proof.requests) && Owners(c, proof.owners)
    ensures Grouped(events, StepKey(c, proof.owners), proof.steps)
    ensures Audited(c, proof.owners, proof.requests, proof.steps, proof.steps.Keys, proof.trail)
    ensures m.Reports(AddSteps(proof.trail)) && AddSteps(proof.trail).Conserved()
    ensures m.observedHostSteps == m.observedRequests == |KeysOf(c, proof.trail)|
        && KeysOf(c, proof.trail) <= proof.requests.Keys
    ensures m.provenanceRequests == if provenance.Some? then Some(|proof.requests|) else None
    ensures m.coverage == Observed <==> proof.Clean(c, provenance, events) && AddSteps(proof.trail).Fits()
    ensures m.coverage == Observed ==> proof.Complete(c, events)
    ensures m.attemptCoverage == Observed <==> m.coverage == Observed
    ensures m.attemptCoverage == Nothing <==> AddSteps(proof.trail).calls == 0 && AddSteps(proof.trail).Fits()
    ensures m.coverage == Nothing <==> proof.trail == [] && AddSteps(proof.trail).Fits()
    ensures m.Conserved()
    ensures forall i :: i in issues <==> proof.Reported(c, provenance, events, i)
  {
    hide *;
    var requests, requestIssues := ReadProvenance(c, provenance.GetOr([]));
    var owners, ownerIssues := ReadOwners(c);
    var steps, groupIssues := GroupSteps(c, owners, events);
    StepsAccepted(c, owners, events, steps);
    var t, observed, sources, stepIssues;
    ghost var trail;
    t, observed, sources, stepIssues, trail := MeasureSteps(c, owners, requests, steps);
    proof := Evidence(requests, owners, steps, trail);
    AuditTotals(c, owners, requests, steps, trail);
    issues := AllIssues(c, requestIssues + ownerIssues + groupIssues + stepIssues, provenance.Some?, t, sources,
                        provenance.Some? && |observed| < |requests|);
    EachReported(c, provenance, events, proof, requestIssues, ownerIssues, groupIssues, stepIssues);
    m := Report(t, if provenance.Some? then Some(|requests|) else None, |observed|, issues == {});
    AllIssuesEmpty(c, requestIssues + ownerIssues + groupIssues + stepIssues, provenance.Some?, t, sources,
                   provenance.Some? && |observed| < |requests|);
    assert issues == {}
           <==> requestIssues == ownerIssues == groupIssues == stepIssues == {} && provenance.Some? && t.hostSteps > 0
                             && c.sources.Keys <= sources && |observed| >= |requests| && t.Fits();
    CleanMeans(c, provenance, events, proof);
    if |observed| >= |requests| {
      SubsetOfSameSize(observed, requests.Keys);
    }
    if m.coverage == Observed {
      CompleteWhenClean(c, events, proof);
    }
  }

  function AllIssues(c: Context, found: set<Issue>, available: bool, t: Totals, sources: set<nat>,
      partial: bool): set<Issue> {
    found + (if available then {} else {ProvenanceUnavailable})
    + (if t.hostSteps == 0 then {TimingUnavailable} else {})
    + Unobserved(c.sources.Keys, sources)
    + (if partial then {PartialRequests} else {})
    + (if t.Fits() then {} else {SumOverflow})
  }

  lemma AllIssuesEmpty(c: Context, found: set<Issue>, available: bool, t: Totals, sources: set<nat>, partial: bool)
    ensures AllIssues(c, found, available, t, sources, partial) == {}
            <==> found == {} && available && t.hostSteps > 0 && c.sources.Keys <= sources && !partial && t.Fits()
  {
    hide Totals.Fits;
  }

  lemma PartsReported(c: Context, rows: seq<Provenance>, events: seq<Event>, proof: Evidence,
      requestIssues: set<Issue>, ownerIssues: set<Issue>, groupIssues: set<Issue>, stepIssues: set<Issue>)
    requires Owners(c, proof.owners) && RowsReported(c, rows, |rows|, requestIssues)
    requires forall i :: i in ownerIssues <==> UnfinishedReported(c, i)
    requires groupIssues <= {UnprovedOwner}
             && (groupIssues == {} <==> forall e | e in events && InScope(c, e) :: Accepted(c, proof.owners, e))
    requires StepsReported(c, proof.owners, proof.requests, proof.steps, proof.steps.Keys, stepIssues)
    ensures forall i ::
              i in requestIssues + ownerIssues + groupIssues + stepIssues <==> proof.PartReported(c, rows, events, i)
  {
    hide ProvenanceReported, UnfinishedReported, InScope, Accepted, StepReported, Owners;
    if groupIssues != {} {
      assert UnprovedOwner in groupIssues;
    }
  }

  lemma AllIssuesMean(c: Context, found: set<Issue>, available: bool, t: Totals, sources: set<nat>, partial: bool,
      i: Issue)
    ensures i in AllIssues(c, found, available, t, sources, partial)
            <==> || i in found || (i == ProvenanceUnavailable && !available)
                 || (i == TimingUnavailable && t.hostSteps == 0)
                 || SourceReported(c.sources.Keys, sources, i)
                 || (i == PartialRequests && partial) || (i == SumOverflow && !t.Fits())
  {
    hide Totals.Fits, SourceReported;
  }

  lemma AuditCounts(c: Context, proof: Evidence)
    requires Audited(c, proof.owners, proof.requests, proof.steps, proof.steps.Keys, proof.trail)
    ensures AddSteps(proof.trail).hostSteps == |proof.trail| && Owners(c, proof.owners)
    ensures |KeysOf(c, proof.trail)| >= |proof.requests| <==> KeysOf(c, proof.trail) == proof.requests.Keys
  {
    AuditTotals(c, proof.owners, proof.requests, proof.steps, proof.trail);
    hide AddSteps, KeysOf, CountableStep, HostSteps, Totals.Conserved;
    if |KeysOf(c, proof.trail)| >= |proof.requests| {
      SubsetOfSameSize(KeysOf(c, proof.trail), proof.requests.Keys);
    }
  }

  lemma ReportedMeans(c: Context, provenance: Option<seq<Provenance>>, events: seq<Event>, proof: Evidence, i: Issue)
    requires Owners(c, proof.owners)
    ensures proof.Reported(c, provenance, events, i)
            <==> || proof.PartReported(c, provenance.GetOr([]), events, i)
                 || (i == ProvenanceUnavailable && provenance.None?) || (i == TimingUnavailable && proof.trail == [])
                 || SourceReported(c.sources.Keys, OwnersOf(proof.owners, proof.trail), i)
                 || (i == PartialRequests && provenance.Some? && KeysOf(c, proof.trail) != proof.requests.Keys)
                 || (i == SumOverflow && !AddSteps(proof.trail).Fits())
  {
    hide Evidence.PartReported, SourceReported, Owners, OwnersOf, KeysOf, AddSteps, Totals.Fits;
  }

  lemma AllIssuesReported(c: Context, provenance: Option<seq<Provenance>>, events: seq<Event>, proof: Evidence,
      found: set<Issue>, i: Issue)
    requires Audited(c, proof.owners, proof.requests, proof.steps, proof.steps.Keys, proof.trail)
    requires i in found <==> proof.PartReported(c, provenance.GetOr([]), events, i)
    ensures var t, observed := AddSteps(proof.trail), KeysOf(c, proof.trail);
            var issues := AllIssues(c, found, provenance.Some?, t, OwnersOf(proof.owners, proof.trail),
                                    provenance.Some? && |observed| < |proof.requests|);
            i in issues <==> proof.Reported(c, provenance, events, i)
  {
    hide *;
    AuditCounts(c, proof);
    ReportedMeans(c, provenance, events, proof, i);
    var t, observed := AddSteps(proof.trail), KeysOf(c, proof.trail);
    AllIssuesMean(c, found, provenance.Some?, t, OwnersOf(proof.owners, proof.trail),
                  provenance.Some? && |observed| < |proof.requests|, i);
  }

  lemma EachReported(c: Context, provenance: Option<seq<Provenance>>, events: seq<Event>, proof: Evidence,
      requestIssues: set<Issue>, ownerIssues: set<Issue>, groupIssues: set<Issue>, stepIssues: set<Issue>)
    requires Audited(c, proof.owners, proof.requests, proof.steps, proof.steps.Keys, proof.trail)
             && Owners(c, proof.owners)
    requires RowsReported(c, provenance.GetOr([]), |provenance.GetOr([])|, requestIssues)
    requires forall i :: i in ownerIssues <==> UnfinishedReported(c, i)
    requires groupIssues <= {UnprovedOwner}
             && (groupIssues == {} <==> forall e | e in events && InScope(c, e) :: Accepted(c, proof.owners, e))
    requires StepsReported(c, proof.owners, proof.requests, proof.steps, proof.steps.Keys, stepIssues)
    ensures var t, observed := AddSteps(proof.trail), KeysOf(c, proof.trail);
            var issues := AllIssues(c, requestIssues + ownerIssues + groupIssues + stepIssues, provenance.Some?, t,
                                    OwnersOf(proof.owners, proof.trail),
                                    provenance.Some? && |observed| < |proof.requests|);
            forall i :: i in issues <==> proof.Reported(c, provenance, events, i)
  {
    hide *;
    PartsReported(c, provenance.GetOr([]), events, proof, requestIssues, ownerIssues, groupIssues, stepIssues);
    forall i {
      AllIssuesReported(c, provenance, events, proof, requestIssues + ownerIssues + groupIssues + stepIssues, i);
    }
  }

  lemma CleanMeans(c: Context, provenance: Option<seq<Provenance>>, events: seq<Event>, proof: Evidence)
    requires Owners(c, proof.owners)
    ensures proof.Clean(c, provenance, events) <==>
              && provenance.Some? && AllSole(c, provenance.GetOr([])) && proof.steps != map[]
              && (forall n | n in c.sources :: c.sources[n].unfinished == 0)
                  && c.sources.Keys <= OwnersOf(proof.owners, proof.trail)
              && (forall e | e in events && InScope(c, e) :: Accepted(c, proof.owners, e))
              && (forall k | k in proof.steps :: CleanStep(c, proof.owners, proof.requests, proof.steps, k))
              && KeysOf(c, proof.trail) == proof.requests.Keys
  {
    hide AllSole, OwnersOf, InScope, Accepted, CleanStep, KeysOf;
  }

  function Unobserved(sources: set<nat>, observed: set<nat>): (issues: set<Issue>)
    ensures issues == {} <==> sources <= observed
    ensures forall i :: i in issues <==> SourceReported(sources, observed, i)
  {
    var missing := set n | n in sources && n !in observed :: SourceUnobserved(n);
    assert forall n | n in sources && n !in observed :: SourceUnobserved(n) in missing;
    missing
  }
}
