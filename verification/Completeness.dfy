/** How complete the recorded usage of one task is: the main-model calls that a
    usage row answers, and the rows that no call explains
    (scripts/session-comparison.ts, acceptedUsageCompleteness). */
module Completeness {
  import opened Bridges
  import opened Coverage
  import opened Groups
  import opened Identifiers
  import opened Json
  import opened Usage

  /** The execution rows whose trace names the call. */
  function OwnedRows(c: Context, usage: seq<UsageRow>, nonExecution: set<nat>, call: Call): set<nat> {
    set i: nat | i < |usage| && i !in nonExecution
                 && usage[i].AcceptedSource() == Some(SourceKey(c.sessionId, call.source))
                 && usage[i].LogicalTurn() == Some("turn:" + Decimal(call.source))
                 && usage[i].Attempt() == Some(call.attempt) && usage[i].Call() == Some(call.callId)
  }

  predicate Undisturbed(e: Event) {
    e.data.retired != Bool(true) && e.data.requestAborted != Bool(true)
  }

  predicate Answers(c: Context, row: UsageRow, response: Event) {
    && row.ok != Some(false) && row.responseId.Some? && ExactIdentity(row.responseId.value)
    && response.data.providerResponseIdDigest == Str(c.sha256(row.responseId.value)) && Certified(c, row)
  }

  /** The call started, answered and returned once, in this order, in a single
      undisturbed physical attempt. */
  predicate Settled(events: seq<Event>) {
    var starts, responses, finishes := InPhase(events, "call_started"), InPhase(events, "response_observed"),
    InPhase(events, "call_finished");
    && |starts| == |responses| == |finishes| == 1
    && starts[0].seqNo < responses[0].seqNo < finishes[0].seqNo
    && Undisturbed(starts[0]) && Undisturbed(responses[0]) && Undisturbed(finishes[0])
    && finishes[0].data.outcome == Str("returned")
    && finishes[0].data.attemptCount == Num(1.0) && finishes[0].data.failedAttemptCount == Num(0.0)
    && responses[0].data.attempt == Num(1.0)
    && responses[0].data.providerResponseIdDigest.Str? && Digest(responses[0].data.providerResponseIdDigest.s)
  }

  function Namesakes(calls: Calls, callId: string): set<Call> {
    set call | call in calls && call.callId == callId
  }

  /** Row `i` is the usage of this call and of no other. */
  predicate BoundTo(c: Context, usage: seq<UsageRow>, nonExecution: set<nat>, calls: Calls, call: Call, i: nat)
    requires call in calls
  {
    && |Namesakes(calls, call.callId)| == 1 && Settled(calls[call])
    && OwnedRows(c, usage, nonExecution, call) == {i} && i < |usage|
    && Answers(c, usage[i], InPhase(calls[call], "response_observed")[0])
  }

  predicate ZeroUsage(row: UsageRow) {
    && row.inputTokens == 0.0 && row.outputTokens == 0.0 && row.cachedInputTokens.GetOr(0.0) == 0.0
    && row.cacheCreationInputTokens.GetOr(0.0) == 0.0 && row.reasoningTokens.GetOr(0.0) == 0.0
    && row.totalTokens.GetOr(0.0) == 0.0
  }

  // ---------------------------------------------------------------- bound calls

  /** The rows of the bound calls among `done`: all of them, and nothing else. */
  ghost predicate Bound(c: Context, usage: seq<UsageRow>, nonExecution: set<nat>, calls: Calls, done: set<Call>,
      rowOf: map<Call, nat>) {
    && (forall call | call in rowOf ::
          call in done && call in calls && BoundTo(c, usage, nonExecution, calls, call, rowOf[call]))
    && (forall call, i | call in done && call in calls && BoundTo(c, usage, nonExecution, calls, call, i) ::
          call in rowOf)
  }

  /** Two bound calls never share a usage row. */
  lemma BoundRowsDiffer(c: Context, usage: seq<UsageRow>, nonExecution: set<nat>, calls: Calls, a: Call, b: Call,
      i: nat)
    requires a in calls && b in calls
    requires BoundTo(c, usage, nonExecution, calls, a, i) && BoundTo(c, usage, nonExecution, calls, b, i)
    ensures a == b
  {
    assert i in OwnedRows(c, usage, nonExecution, a) && i in OwnedRows(c, usage, nonExecution, b);
    var same := Namesakes(calls, a.callId);
    assert a in same && b in same;
    assert |same - {a}| == 0;
  }

  lemma BoundStep(c: Context, usage: seq<UsageRow>, nonExecution: set<nat>, calls: Calls, done: set<Call>,
      rowOf: map<Call, nat>, call: Call, row: Option<nat>)
    requires Bound(c, usage, nonExecution, calls, done, rowOf) && call in calls && call !in done
    requires row.Some? ==> BoundTo(c, usage, nonExecution, calls, call, row.value)
    requires row.None? ==> forall i :: !BoundTo(c, usage, nonExecution, calls, call, i)
    ensures row.None? ==> Bound(c, usage, nonExecution, calls, done + {call}, rowOf)
    ensures row.Some?
            ==> Bound(c, usage, nonExecution, calls, done + {call}, rowOf[call := row.value]) && call !in rowOf
  {
    hide BoundTo;
  }

  /** Every bound call has a row of its own among the rows of the main calls. */
  lemma BoundAreInjective(c: Context, usage: seq<UsageRow>, nonExecution: set<nat>, calls: Calls, done: set<Call>,
      rowOf: map<Call, nat>)
    requires Bound(c, usage, nonExecution, calls, done, rowOf)
    ensures forall a, b | a in rowOf && b in rowOf && rowOf[a] == rowOf[b] :: a == b
    ensures forall a | a in rowOf :: rowOf[a] in MainRows(c, usage, nonExecution, calls, done)
    ensures |rowOf| <= |MainRows(c, usage, nonExecution, calls, done)|
  {
    forall a, b | a in rowOf && b in rowOf && rowOf[a] == rowOf[b] ensures a == b {
      BoundRowsDiffer(c, usage, nonExecution, calls, a, b, rowOf[a]);
    }
    forall a | a in rowOf ensures rowOf[a] in MainRows(c, usage, nonExecution, calls, done) {
      BoundIsMain(c, usage, nonExecution, calls, done, a, rowOf[a]);
    }
    hide BoundTo, MainRows;
    InjectionBounds(rowOf.Keys, a => if a in rowOf then rowOf[a] else 0, MainRows(c, usage, nonExecution, calls, done));
  }

  lemma BoundIsMain(c: Context, usage: seq<UsageRow>, nonExecution: set<nat>, calls: Calls, done: set<Call>,
      call: Call, i: nat)
    requires call in done && call in calls && BoundTo(c, usage, nonExecution, calls, call, i)
    ensures i in MainRows(c, usage, nonExecution, calls, done)
  {
  }

  /** The rows that some call of `done` owns, bound or not. */
  ghost function MainRows(c: Context, usage: seq<UsageRow>, nonExecution: set<nat>, calls: Calls,
      done: set<Call>): set<nat> {
    set call, i | call in done && call in calls && i in OwnedRows(c, usage, nonExecution, call) :: i
  }

  lemma MainRowsStep(c: Context, usage: seq<UsageRow>, nonExecution: set<nat>, calls: Calls, done: set<Call>,
      call: Call)
    requires call in calls
    ensures MainRows(c, usage, nonExecution, calls, done + {call})
            == MainRows(c, usage, nonExecution, calls, done) + OwnedRows(c, usage, nonExecution, call)
  {
  }

  /** When every call is bound, the main rows and the calls correspond one to one. */
  lemma AllBound(c: Context, usage: seq<UsageRow>, nonExecution: set<nat>, calls: Calls, rowOf: map<Call, nat>)
    requires Bound(c, usage, nonExecution, calls, calls.Keys, rowOf) && rowOf.Keys == calls.Keys
    ensures rowOf.Values == MainRows(c, usage, nonExecution, calls, calls.Keys)
    ensures |MainRows(c, usage, nonExecution, calls, calls.Keys)| == |calls|
  {
    hide Bound, BoundTo, MainRows;
    BoundAreInjective(c, usage, nonExecution, calls, calls.Keys, rowOf);
    forall i | i in MainRows(c, usage, nonExecution, calls, calls.Keys) ensures i in rowOf.Values {
      OwnedIsBound(c, usage, nonExecution, calls, rowOf, i);
    }
    FewerValues(rowOf);
  }

  lemma OwnedIsBound(c: Context, usage: seq<UsageRow>, nonExecution: set<nat>, calls: Calls, rowOf: map<Call, nat>,
      i: nat)
    requires Bound(c, usage, nonExecution, calls, calls.Keys, rowOf) && rowOf.Keys == calls.Keys
    requires i in MainRows(c, usage, nonExecution, calls, calls.Keys)
    ensures i in rowOf.Values
  {
    hide BoundTo, OwnedRows;
    var call :| call in calls && i in OwnedRows(c, usage, nonExecution, call);
    OnlyRow(c, usage, nonExecution, calls, call, rowOf[call], i);
  }

  lemma OnlyRow(c: Context, usage: seq<UsageRow>, nonExecution: set<nat>, calls: Calls, call: Call, bound: nat, i: nat)
    requires call in calls && BoundTo(c, usage, nonExecution, calls, call, bound)
        && i in OwnedRows(c, usage, nonExecution, call)
    ensures i == bound
  {
  }

  method FindRow(c: Context, usage: seq<UsageRow>, nonExecution: set<nat>, calls: Calls, call: Call)
      returns (row: Option<nat>, rows: set<nat>)
    requires call in calls
    ensures rows == OwnedRows(c, usage, nonExecution, call)
    ensures row.Some? ==> BoundTo(c, usage, nonExecution, calls, call, row.value)
    ensures row.None? ==> forall i :: !BoundTo(c, usage, nonExecution, calls, call, i)
  {
    row, rows := None, OwnedRows(c, usage, nonExecution, call);
    hide OwnedRows, Answers;
    if |Namesakes(calls, call.callId)| == 1 && Settled(calls[call]) && |rows| == 1 {
      var i :| i in rows;
      assert rows == {i} by {
        assert |rows - {i}| == 0;
      }
      if i < |usage| && Answers(c, usage[i], InPhase(calls[call], "response_observed")[0]) {
        row := Some(i);
      }
      assert forall j | rows == {j} :: j in rows && j == i;
    } else {
      assert forall j: nat | rows == {j} :: |rows| == 1;
    }
  }

  // ---------------------------------------------------------------- the whole task

  datatype Status = NotObserved | Incomplete | ObservedCompletedCalls

  datatype MainIssue = Uncovered(issue: Issue) | ProducerUnproved(call: Call) | InventoryUnproved

  /** The recorded rows, and those without an exact model, account or backend. */
  datatype Rows = Rows(certified: nat, unknown: nat, invalid: nat, failed: nat, modelGaps: nat, accountGaps: nat,
      backendGaps: nat)
  {
    function Add(c: Context, row: UsageRow): Rows {
      Rows(certified + (if Certified(c, row) then 1 else 0), unknown + (if Certified(c, row) then 0 else 1),
           invalid + (if c.accounting(row).invalid then 1 else 0), failed + (if row.ok == Some(false) then 1 else 0),
           modelGaps + (if Named(row.providerReportedModel) then 0 else 1),
           accountGaps + (if Named(row.account) then 0 else 1),
           backendGaps + (if Named(row.backendId) then 0 else 1))
    }
  }

  predicate Named(id: Option<string>) {
    id.Some? && ExactIdentity(id.value)
  }

  ghost predicate RowsCounted(c: Context, usage: seq<UsageRow>, rows: Rows) {
    && rows.certified + rows.unknown == |usage|
    && rows.certified == Count(usage, (row: UsageRow) => Certified(c, row))
    && rows.invalid == Count(usage, (row: UsageRow) => c.accounting(row).invalid) && rows.invalid <= rows.unknown
    && rows.failed == Count(usage, (row: UsageRow) => row.ok == Some(false))
    && rows.modelGaps == Count(usage, (row: UsageRow) => !Named(row.providerReportedModel))
    && rows.accountGaps == Count(usage, (row: UsageRow) => !Named(row.account))
    && rows.backendGaps == Count(usage, (row: UsageRow) => !Named(row.backendId))
  }

  lemma RowsStep(c: Context, usage: seq<UsageRow>, rows: Rows, row: UsageRow)
    requires RowsCounted(c, usage, rows)
    ensures RowsCounted(c, usage + [row], rows.Add(c, row))
  {
    hide Named;
  }

  method CountRows(c: Context, usage: seq<UsageRow>) returns (rows: Rows)
    ensures RowsCounted(c, usage, rows)
  {
    rows := Rows(0, 0, 0, 0, 0, 0, 0);
    assert RowsCounted(c, usage[..0], rows);
    hide RowsCounted, Rows.Add;
    for n := 0 to |usage|
      invariant RowsCounted(c, usage[..n], rows)
    {
      var row := usage[n];
      assert usage[..n + 1] == usage[..n] + [row];
      RowsStep(c, usage[..n], rows, row);
      rows := rows.Add(c, row);
    }
    assert usage[..|usage|] == usage;
  }

  lemma NothingBound(c: Context, usage: seq<UsageRow>, nonExecution: set<nat>, calls: Calls)
    ensures Bound(c, usage, nonExecution, calls, {}, map[]) && MainRows(c, usage, nonExecution, calls, {}) == {}
    ensures Unproved({}, map[]) == {} && ZeroCalls(usage, map[]) == {}
  {
  }

  ghost function ZeroCalls(usage: seq<UsageRow>, rowOf: map<Call, nat>): set<Call> {
    set call | call in rowOf && ZeroAmong(usage, rowOf[call]) == 1
  }

  /** A known zero is a bound call whose row reports no token of any kind: each
      count is zero, or an optional one is absent. */
  lemma ZeroCallsMean(usage: seq<UsageRow>, rowOf: map<Call, nat>, call: Call)
    requires forall other | other in rowOf :: rowOf[other] < |usage|
    ensures call in ZeroCalls(usage, rowOf) <==>
              && call in rowOf
              && var row := usage[rowOf[call]];
                 row == row.(inputTokens := 0.0, outputTokens := 0.0)
                 && {row.cachedInputTokens, row.cacheCreationInputTokens, row.reasoningTokens, row.totalTokens}
                    <= {None, Some(0.0)}
  {
  }

  lemma ZeroStep(usage: seq<UsageRow>, rowOf: map<Call, nat>, call: Call, i: nat)
    requires call !in rowOf
    ensures |ZeroCalls(usage, rowOf[call := i])| == |ZeroCalls(usage, rowOf)| + ZeroAmong(usage, i)
    ensures |ZeroCalls(usage, rowOf)| <= |rowOf|
  {
    hide ZeroAmong;
    ZeroAmongIsBit(usage, i);
    SubsetSize(ZeroCalls(usage, rowOf), rowOf.Keys);
    if ZeroAmong(usage, i) == 1 {
      assert ZeroCalls(usage, rowOf[call := i]) == ZeroCalls(usage, rowOf) + {call};
    } else {
      assert ZeroCalls(usage, rowOf[call := i]) == ZeroCalls(usage, rowOf);
    }
  }

  lemma ZeroAmongIsBit(usage: seq<UsageRow>, i: nat)
    ensures ZeroAmong(usage, i) == 0 || ZeroAmong(usage, i) == 1
  {
  }

  ghost function Unproved(done: set<Call>, rowOf: map<Call, nat>): set<MainIssue> {
    set call | call in done && call !in rowOf :: ProducerUnproved(call)
  }

  lemma UnprovedStep(done: set<Call>, rowOf: map<Call, nat>, call: Call, i: nat)
    requires call !in done && rowOf.Keys <= done
    ensures Unproved(done + {call}, rowOf) == Unproved(done, rowOf) + {ProducerUnproved(call)}
    ensures Unproved(done + {call}, rowOf[call := i]) == Unproved(done, rowOf)
  {
  }

  function ZeroAmong(usage: seq<UsageRow>, i: nat): nat {
    if i < |usage| && ZeroUsage(usage[i]) then 1 else 0
  }

  method BindCalls(c: Context, usage: seq<UsageRow>, nonExecution: set<nat>, calls: Calls)
    returns (responseBound: nat, knownZero: nat, mainUsage: set<nat>, unproved: set<MainIssue>,
             ghost rowOf: map<Call, nat>)
    ensures Bound(c, usage, nonExecution, calls, calls.Keys, rowOf)
    ensures responseBound == |rowOf| && rowOf.Keys <= calls.Keys
    ensures knownZero == |ZeroCalls(usage, rowOf)| <= responseBound
    ensures mainUsage == MainRows(c, usage, nonExecution, calls, calls.Keys)
    ensures unproved == Unproved(calls.Keys, rowOf)
  {
    hide *;
    responseBound, knownZero, mainUsage, unproved, rowOf := 0, 0, {}, {}, map[];
    var todo := calls.Keys;
    assert calls.Keys - todo == {};
    NothingBound(c, usage, nonExecution, calls);
    while todo != {}
      invariant todo <= calls.Keys
      invariant Bound(c, usage, nonExecution, calls, calls.Keys - todo, rowOf)
      invariant responseBound == |rowOf| && rowOf.Keys <= calls.Keys - todo
      invariant knownZero == |ZeroCalls(usage, rowOf)| <= responseBound
      invariant mainUsage == MainRows(c, usage, nonExecution, calls, calls.Keys - todo)
      invariant unproved == Unproved(calls.Keys - todo, rowOf)
    {
      var call :| call in todo;
      assert calls.Keys - (todo - {call}) == calls.Keys - todo + {call};
      var row, rows := FindRow(c, usage, nonExecution, calls, call);
      MainRowsStep(c, usage, nonExecution, calls, calls.Keys - todo, call);
      BoundStep(c, usage, nonExecution, calls, calls.Keys - todo, rowOf, call, row);
      UnprovedStep(calls.Keys - todo, rowOf, call, row.GetOr(0));
      mainUsage, todo := mainUsage + rows, todo - {call};
      if row.None? {
        unproved := unproved + {ProducerUnproved(call)};
      } else {
        assert call !in rowOf;
        ZeroStep(usage, rowOf, call, row.value);
        ZeroAmongIsBit(usage, row.value);
        SomeValue(row);
        rowOf := rowOf[call := row.value];
        responseBound, knownZero := responseBound + 1, knownZero + ZeroAmong(usage, row.value);
      }
    }
    assert calls.Keys - todo == calls.Keys;
  }

  lemma SomeValue(row: Option<nat>)
    requires row.Some?
    ensures row.GetOr(0) == row.value
  {
  }

  /** Some execution row claims a role that only a main call has. */
  predicate MainRole(usage: seq<UsageRow>, nonExecution: set<nat>) {
    exists i :: 0 <= i < |usage| && i !in nonExecution && usage[i].role in {Some("brain"), Some("writer")}
  }

  /** The rows that executions caused. */
  function ExecutionRows(usage: seq<UsageRow>, nonExecution: set<nat>, n: nat): (rows: seq<UsageRow>)
    requires n <= |usage|
    ensures forall row :: row in rows <==> exists i :: 0 <= i < n && i !in nonExecution && usage[i] == row
  {
    if n == 0 then [] else
      ExecutionRows(usage, nonExecution, n - 1) + if n - 1 in nonExecution then [] else [usage[n - 1]]
  }

  function AllIssues(coverage: set<Issue>, unproved: set<MainIssue>, inventory: bool): (issues: set<MainIssue>)
    ensures issues == {} <==> coverage == {} && unproved == {} && !inventory
    ensures forall i ::
              i in issues
              <==> (i.Uncovered? && i.issue in coverage) || i in unproved || (inventory && i == InventoryUnproved)
  {
    var wrapped := set i | i in coverage :: Uncovered(i);
    assert forall i | i in coverage :: Uncovered(i) in wrapped;
    wrapped + unproved + if inventory then {InventoryUnproved} else {}
  }

  datatype Measurement = Measurement(
    status: Status, observedCalls: nat, responseBoundCalls: nat, knownZeroCompletedMainCalls: nat, rows: Rows,
    recordedRowsOutsideMainCalls: nat)

  /** What the main model is reported for. */
  ghost predicate Issued(c: Context, events: seq<Event>, streams: seq<Stream>, usage: seq<UsageRow>,
      nonExecution: set<nat>, calls: Calls,
      rowOf: map<Call, nat>, i: MainIssue) {
    match i
    case Uncovered(x) => CoverageReported(c, events, streams, ExecutionRows(usage, nonExecution, |usage|), calls, x)
    case ProducerUnproved(call) => call in calls && call !in rowOf
    case InventoryUnproved => calls == map[] && MainRole(usage, nonExecution)
  }

  /** `observed_completed_calls` stands for a full explanation: every observation
      is explained, and every call has a certified row of its own. */
  method MeasureCompleteness(c: Context, events: seq<Event>, streams: seq<Stream>, usage: seq<UsageRow>,
      nonExecution: set<nat>)
    returns (m: Measurement, issues: set<MainIssue>, ghost calls: Calls, ghost rowOf: map<Call, nat>)
    ensures Grouped(events, CallOf(c), calls) && m.observedCalls == |calls|
    ensures Bound(c, usage, nonExecution, calls, calls.Keys, rowOf) && m.responseBoundCalls == |rowOf|
    ensures forall a, b | a in rowOf && b in rowOf && rowOf[a] == rowOf[b] :: a == b
    ensures m.knownZeroCompletedMainCalls == |ZeroCalls(usage, rowOf)| <= m.responseBoundCalls <= m.observedCalls
    ensures RowsCounted(c, usage, m.rows)
    ensures m.recordedRowsOutsideMainCalls == |usage| - |MainRows(c, usage, nonExecution, calls, calls.Keys)|
    ensures m.recordedRowsOutsideMainCalls + m.responseBoundCalls <= |usage|
    ensures m.status == ObservedCompletedCalls <==>
              m.observedCalls > 0 && rowOf.Keys == calls.Keys
              && Explained(c, events, streams, ExecutionRows(usage, nonExecution, |usage|), calls)
    ensures m.status == ObservedCompletedCalls ==> m.recordedRowsOutsideMainCalls + m.observedCalls == |usage|
    ensures m.status == NotObserved <==>
              m.observedCalls == 0 && Explained(c, events, streams, ExecutionRows(usage, nonExecution, |usage|), calls)
              && !MainRole(usage, nonExecution)
    ensures forall i :: i in issues <==> Issued(c, events, streams, usage, nonExecution, calls, rowOf, i)
  {
    hide *;
    var execution := ExecutionRows(usage, nonExecution, |usage|);
    var coverage, byCall := CheckCoverage(c, events, streams, execution);
    calls := byCall;
    var responseBound, knownZero, mainUsage, unproved;
    responseBound, knownZero, mainUsage, unproved, rowOf := BindCalls(c, usage, nonExecution, byCall);
    BoundAreInjective(c, usage, nonExecution, byCall, byCall.Keys, rowOf);
    SomeUnbound(byCall, rowOf);
    QuietIsExplained(c, events, streams, execution, byCall);
    QuietMeans(c, events, streams, execution, byCall, coverage);
    issues := AllIssues(coverage, unproved, |byCall| == 0 && MainRole(usage, nonExecution));
    forall i {
      IssuedMeans(c, events, streams, usage, nonExecution, byCall, rowOf, i);
    }
    var rows := CountRows(c, usage);
    var status := if |byCall| > 0 && responseBound == |byCall| && issues == {} then ObservedCompletedCalls
                  else if |byCall| > 0 || issues != {} then Incomplete else NotObserved;
    MainRowsExist(c, usage, nonExecution, byCall);
    if rowOf.Keys == byCall.Keys {
      AllBound(c, usage, nonExecution, byCall, rowOf);
    }
    m := Measurement(status, |byCall|, responseBound, knownZero, rows, |usage| - |mainUsage|);
  }

  lemma QuietMeans(c: Context, events: seq<Event>, streams: seq<Stream>, usage: seq<UsageRow>, calls: Calls,
      coverage: set<Issue>)
    requires forall i :: i in coverage <==> CoverageReported(c, events, streams, usage, calls, i)
    ensures coverage == {} <==> NoReports(c, events, streams, usage, calls)
  {
    hide CoverageReported;
  }

  lemma IssuedMeans(c: Context, events: seq<Event>, streams: seq<Stream>, usage: seq<UsageRow>, nonExecution: set<nat>,
      calls: Calls,
      rowOf: map<Call, nat>, i: MainIssue)
    ensures Issued(c, events, streams, usage, nonExecution, calls, rowOf, i)
            <==> || (i.Uncovered? && CoverageReported(c, events, streams, ExecutionRows(usage, nonExecution, |usage|),
                                                      calls, i.issue))
                 || i in Unproved(calls.Keys, rowOf)
                 || (i == InventoryUnproved && |calls| == 0 && MainRole(usage, nonExecution))
  {
    hide CoverageReported, ExecutionRows, MainRole;
  }

  lemma SomeUnbound(calls: Calls, rowOf: map<Call, nat>)
    requires rowOf.Keys <= calls.Keys
    ensures |rowOf| <= |calls|
    ensures |rowOf| == |calls| <==> rowOf.Keys == calls.Keys
    ensures Unproved(calls.Keys, rowOf) == {} <==> rowOf.Keys == calls.Keys
  {
    assert calls.Keys == rowOf.Keys + (calls.Keys - rowOf.Keys);
    if Unproved(calls.Keys, rowOf) == {} {
      forall call | call in calls ensures call in rowOf {
        assert call !in rowOf ==> ProducerUnproved(call) in Unproved(calls.Keys, rowOf);
      }
    }
  }

  lemma MainRowsExist(c: Context, usage: seq<UsageRow>, nonExecution: set<nat>, calls: Calls)
    ensures |MainRows(c, usage, nonExecution, calls, calls.Keys)| <= |usage|
  {
    IndicesBound(MainRows(c, usage, nonExecution, calls, calls.Keys), |usage|);
  }

  lemma {:induction false} IndicesBound(indices: set<nat>, n: nat)
    requires forall i | i in indices :: i < n
    ensures |indices| <= n
  {
    if n == 0 {
      assert indices == {};
    } else {
      IndicesBound(indices - {n - 1}, n - 1);
      assert |indices| <= |indices - {n - 1}| + 1;
    }
  }

  // ---------------------------------------------------------------- responses and calls

  /** The call's own row names the response. */
  ghost predicate AnsweredBy(c: Context, usage: seq<UsageRow>, calls: Calls, rowOf: map<Call, nat>, s: Stream,
      call: Call) {
    && ResponseOf(c, s).Some? && call in calls && call in rowOf && rowOf[call] < |usage|
    && call.source == SourceOf(s.sourceUserSeq) && call.attempt == s.attemptId.s
    && NamesResponse(usage[rowOf[call]], s.responseId.s)
  }

  /** A call's own row is a certified execution row of its attempt and id. */
  lemma OwnRow(c: Context, usage: seq<UsageRow>, nonExecution: set<nat>, calls: Calls, rowOf: map<Call, nat>,
      call: Call)
    requires Bound(c, usage, nonExecution, calls, calls.Keys, rowOf) && call in rowOf
    ensures call in calls && OwnedRows(c, usage, nonExecution, call) == {rowOf[call]} && rowOf[call] < |usage|
            && rowOf[call] !in nonExecution
    ensures var row := usage[rowOf[call]];
            Certified(c, row) && UsageFor(c.sessionId, row, call.source, call.attempt)
                && row.Call() == Some(call.callId)
  {
    assert BoundTo(c, usage, nonExecution, calls, call, rowOf[call]);
    assert rowOf[call] in OwnedRows(c, usage, nonExecution, call);
    hide Settled, Certified;
  }

  /** A bridging execution row is the own row of the call it names. */
  lemma BridgeIsOwn(c: Context, usage: seq<UsageRow>, nonExecution: set<nat>, calls: Calls, rowOf: map<Call, nat>,
      s: Stream, row: UsageRow)
    returns (call: Call)
    requires Bound(c, usage, nonExecution, calls, calls.Keys, rowOf) && rowOf.Keys == calls.Keys
    requires row in ExecutionRows(usage, nonExecution, |usage|) && ResponseOf(c, s).Some?
    requires Bridging(c.sessionId, HostCalls(calls.Keys), ResponseOf(c, s).value, row)
    ensures AnsweredBy(c, usage, calls, rowOf, s, call)
  {
    hide InScope, Bound;
    var r := ResponseOf(c, s).value;
    var i :| 0 <= i < |usage| && i !in nonExecution && usage[i] == row;
    call :| call in calls.Keys
        && HostCall(call.source, call.attempt, call.callId) == HostCall(r.source, r.attempt, row.Call().value);
    OwnRow(c, usage, nonExecution, calls, rowOf, call);
    assert i in OwnedRows(c, usage, nonExecution, call);
  }

  lemma AnswerIsBridge(c: Context, streams: seq<Stream>, usage: seq<UsageRow>, nonExecution: set<nat>, calls: Calls,
      rowOf: map<Call, nat>,
      s: Stream, call: Call)
    requires Bound(c, usage, nonExecution, calls, calls.Keys, rowOf) && s in streams
             && AnsweredBy(c, usage, calls, rowOf, s, call)
    ensures Bridge((call.source, call.attempt), s.responseId.s, call.callId)
            in Relation(c, streams, ExecutionRows(usage, nonExecution, |usage|), calls.Keys)
  {
    hide InScope, OwnedStream, Bound;
    OwnRow(c, usage, nonExecution, calls, rowOf, call);
    var row, r := usage[rowOf[call]], ResponseOf(c, s).value;
    assert row in CertifiedRows(c, ExecutionRows(usage, nonExecution, |usage|)) && r in Responses(c, streams);
    assert HostCall(call.source, call.attempt, call.callId) in HostCalls(calls.Keys);
    assert Bridging(c.sessionId, HostCalls(calls.Keys), r, row);
    assert BridgeOf(r, row) == Bridge((call.source, call.attempt), s.responseId.s, call.callId);
    hide Bridging, BridgeOf, CertifiedRows, Responses, ExecutionRows, HostCalls;
  }

  /** What `observed_completed_calls` means for a provider response of the task: it
      is named by the own row of exactly one host call of its attempt, and no
      other response is. */
  lemma ResponsesMatchCalls(c: Context, events: seq<Event>, streams: seq<Stream>, usage: seq<UsageRow>,
      nonExecution: set<nat>,
      calls: Calls, rowOf: map<Call, nat>, s: Stream)
    requires Explained(c, events, streams, ExecutionRows(usage, nonExecution, |usage|), calls)
    requires Bound(c, usage, nonExecution, calls, calls.Keys, rowOf) && rowOf.Keys == calls.Keys
    requires s in streams && InScope(c, s.sourceUserSeq, s.attemptId)
    ensures exists call :: AnsweredBy(c, usage, calls, rowOf, s, call)
    ensures forall a, b | AnsweredBy(c, usage, calls, rowOf, s, a) && AnsweredBy(c, usage, calls, rowOf, s, b) :: a == b
    ensures forall t, call |
              t in streams && AnsweredBy(c, usage, calls, rowOf, s, call)
              && AnsweredBy(c, usage, calls, rowOf, t, call) ::
              t.responseId == s.responseId && ResponseOf(c, t) == ResponseOf(c, s)
  {
    hide Bound, AnsweredBy, ExecutionRows, Bridging, Relation, HostCalls, CallsExplained, EventsExplained;
    var execution := ExecutionRows(usage, nonExecution, |usage|);
    var row :| row in execution && Certified(c, row)
        && Bridging(c.sessionId, HostCalls(calls.Keys), ResponseOf(c, s).value, row);
    var call := BridgeIsOwn(c, usage, nonExecution, calls, rowOf, s, row);
    forall a, b | AnsweredBy(c, usage, calls, rowOf, s, a) && AnsweredBy(c, usage, calls, rowOf, s, b) ensures a == b {
      AnswerIsBridge(c, streams, usage, nonExecution, calls, rowOf, s, a);
      AnswerIsBridge(c, streams, usage, nonExecution, calls, rowOf, s, b);
      OneCall(c, events, usage, calls, rowOf, s, a, b);
    }
    forall t, k | t in streams && AnsweredBy(c, usage, calls, rowOf, s, k) && AnsweredBy(c, usage, calls, rowOf, t, k)
      ensures t.responseId == s.responseId && ResponseOf(c, t) == ResponseOf(c, s)
    {
      AnswerIsBridge(c, streams, usage, nonExecution, calls, rowOf, s, k);
      AnswerIsBridge(c, streams, usage, nonExecution, calls, rowOf, t, k);
      OneResponse(c, usage, calls, rowOf, s, t, k);
    }
  }

  lemma OneCall(c: Context, events: seq<Event>, usage: seq<UsageRow>, calls: Calls, rowOf: map<Call, nat>, s: Stream,
      a: Call, b: Call)
    requires EventsExplained(c, events, calls.Keys)
    requires AnsweredBy(c, usage, calls, rowOf, s, a) && AnsweredBy(c, usage, calls, rowOf, s, b)
    ensures a.callId == b.callId ==> a == b
    ensures (a.source, a.attempt) == (b.source, b.attempt)
  {
    hide InScope, StepOf, FailedAttempt, CallOf, StepCalled;
  }

  lemma OneResponse(c: Context, usage: seq<UsageRow>, calls: Calls, rowOf: map<Call, nat>, s: Stream, t: Stream,
      call: Call)
    requires AnsweredBy(c, usage, calls, rowOf, s, call) && AnsweredBy(c, usage, calls, rowOf, t, call)
    ensures s.responseId.s == t.responseId.s ==> t.responseId == s.responseId && ResponseOf(c, t) == ResponseOf(c, s)
    ensures s.responseId.Str? && t.responseId.Str?
  {
    hide InScope, OwnedStream;
  }
}
