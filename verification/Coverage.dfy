/** Whether the observed calls and responses of the main model explain each other
    and their usage rows (scripts/session-comparison.ts,
    mainModelUsageCoverageIssues). */
module Coverage {
  import opened Bridges
  import opened Groups
  import opened Identifiers
  import opened Json
  import opened LastOwner
  import opened Usage

  datatype Data = Data(
    version: Value, phase: Value, sourceUserSeq: Value, runAttemptId: Value, stepId: Value, requestOrdinal: Value,
    callId: Value,
    retired: Value, requestAborted: Value, outcome: Value, attemptCount: Value, failedAttemptCount: Value,
    attempt: Value,
    providerResponseIdDigest: Value)

  /** A `model_resilience_observed` event. */
  datatype Event = Event(seqNo: nat, role: string, data: Data)

  /** A `model_stream_diagnostic` event: one response of a provider. */
  datatype Stream = Stream(
    seqNo: nat, role: string, sourceUserSeq: Value, attemptId: Value, responseId: Value, settlement: Value,
    sawResponseDone: Value)

  /** One host call: its source, attempt, step, request and call identity. */
  datatype Call = Call(source: nat, attempt: string, stepId: string, ordinal: nat, callId: string)

  /** The host step that an identified event belongs to. */
  datatype HostStep = HostStep(source: nat, attempt: string, stepId: string, ordinal: nat)

  datatype Issue =
    | InvalidOwnership(seqNo: nat) | UnsettledResponse(source: nat, seqNo: nat)
    | ResponseIdentityUnknown(source: nat, seqNo: nat) | ResponseWithoutUsage(source: nat, seqNo: nat)
    | CallIdentityUnknown(source: nat, seqNo: nat) | FailedAttemptUnknown(source: nat)
    | ConflictingHostCall
    | UnsettledCall(call: Call) | AttemptMembershipUnknown(call: Call) | HostCallUsageUnknown(call: Call)
    | InvalidResponseBinding(call: Call, seqNo: nat) | BoundResponseUsageUnknown(call: Call, seqNo: nat)
    | ConflictingResponseBinding(call: Call) | MembershipUnknown(source: nat)
    | BridgeUnknown(source: nat, seqNo: nat) | ConflictingBridge

  // ---------------------------------------------------------------- ownership

  predicate InScope(c: Context, source: Value, attempt: Value) {
    || (source.PositiveSeq().Some? && source.PositiveSeq().value in c.sources)
    || (Exact(attempt) && attempt.s in c.sourceByAttempt)
  }

  predicate Owned(c: Context, role: string, seqNo: nat, source: Value, attempt: Value) {
    && role == "system" && source.PositiveSeq().Some? && source.PositiveSeq().value in c.sources
    && Exact(attempt) && attempt.s in c.sourceByAttempt
    && c.isAncestor(source.PositiveSeq().value, c.sourceByAttempt[attempt.s])
    && seqNo > source.PositiveSeq().value
  }

  predicate OwnedEvent(c: Context, e: Event) {
    Owned(c, e.role, e.seqNo, e.data.sourceUserSeq, e.data.runAttemptId)
  }

  predicate OwnedStream(c: Context, s: Stream) {
    Owned(c, s.role, s.seqNo, s.sourceUserSeq, s.attemptId)
  }

  function SourceOf(v: Value): nat {
    v.PositiveSeq().GetOr(0)
  }

  predicate CallPhase(e: Event) {
    e.data.phase in {Str("call_started"), Str("response_observed"), Str("call_finished")}
  }

  /** The host step that an event belongs to, when its ownership is proved. */
  function StepOf(c: Context, e: Event): Option<HostStep> {
    if OwnedEvent(c, e) && e.data.version == Num(1.0) && Exact(e.data.stepId)
       && e.data.requestOrdinal.PositiveSeq().Some?
    then Some(HostStep(SourceOf(e.data.sourceUserSeq), e.data.runAttemptId.s, e.data.stepId.s,
                       e.data.requestOrdinal.PositiveSeq().value))
    else None
  }

  /** The call that an event belongs to, when its ownership is proved. */
  function CallOf(c: Context): Event -> Option<Call> {
    (e: Event) =>
      var step := StepOf(c, e);
      if step.Some? && CallPhase(e) && Exact(e.data.callId)
      then Some(Call(step.value.source, step.value.attempt, step.value.stepId, step.value.ordinal, e.data.callId.s))
      else None
  }

  type Calls = map<Call, seq<Event>>

  function InPhase(events: seq<Event>, phase: string): seq<Event> {
    if events == [] then []
    else InPhase(events[..|events| - 1], phase) + if events[|events| - 1].data.phase == Str(phase)
        then [events[|events| - 1]] else []
  }

  // ---------------------------------------------------------------- what is reported

  /** Some certified row of the source's attempt satisfies `p`. */
  predicate SomeUsage(c: Context, usage: seq<UsageRow>, source: nat, attempt: string, p: UsageRow -> bool) {
    exists row :: row in usage && Certified(c, row) && UsageFor(c.sessionId, row, source, attempt) && p(row)
  }

  /** A retry or an abort that no count can price. */
  predicate FailedAttempt(e: Event) {
    || (e.data.failedAttemptCount.Num? && e.data.failedAttemptCount.x > 0.0)
    || (e.data.phase == Str("attempt_finished") && e.data.outcome == Str("failed"))
    || e.data.requestAborted == Bool(true)
    || (e.data.phase in {Str("call_finished"), Str("host_step_finished")}
        && e.data.outcome in {Str("failed"), Str("cancelled")})
  }

  predicate EventReported(c: Context, e: Event, i: Issue) {
    && InScope(c, e.data.sourceUserSeq, e.data.runAttemptId)
    && if !OwnedEvent(c, e) then i == InvalidOwnership(e.seqNo)
       else var source := SourceOf(e.data.sourceUserSeq);
            if StepOf(c, e).None? then i == CallIdentityUnknown(source, e.seqNo)
            else || (i == FailedAttemptUnknown(source) && FailedAttempt(e))
                 || (i == CallIdentityUnknown(source, e.seqNo) && CallPhase(e) && !Exact(e.data.callId))
  }

  predicate NamesResponse(row: UsageRow, responseId: string) {
    row.responseId == Some(responseId) || row.Call() == Some(responseId)
  }

  predicate StreamReported(c: Context, usage: seq<UsageRow>, s: Stream, i: Issue) {
    && InScope(c, s.sourceUserSeq, s.attemptId)
    && if !OwnedStream(c, s) then i == InvalidOwnership(s.seqNo)
       else var source := SourceOf(s.sourceUserSeq);
            || (i == UnsettledResponse(source, s.seqNo)
                && (s.settlement != Str("completed") || s.sawResponseDone != Bool(true)))
            || (i == ResponseIdentityUnknown(source, s.seqNo) && !Exact(s.responseId))
            || (i == ResponseWithoutUsage(source, s.seqNo) && Exact(s.responseId)
                && !SomeUsage(c, usage, source, s.attemptId.s, (row: UsageRow) => NamesResponse(row, s.responseId.s)))
  }

  /** The response lies between the one start and the one finish of its call, and
      names a digest. */
  predicate BoundResponse(rows: seq<Event>, response: Event) {
    var starts, finishes := InPhase(rows, "call_started"), InPhase(rows, "call_finished");
    && response.data.providerResponseIdDigest.Str? && Digest(response.data.providerResponseIdDigest.s)
    && response.data.attempt.PositiveSeq().Some?
    && |starts| == 1 && |finishes| == 1 && starts[0].seqNo < response.seqNo < finishes[0].seqNo
  }

  predicate CallSettled(rows: seq<Event>) {
    var starts, finishes := InPhase(rows, "call_started"), InPhase(rows, "call_finished");
    |starts| == 1 && |finishes| == 1 && starts[0].seqNo < finishes[0].seqNo
        && finishes[0].data.outcome == Str("returned")
  }

  predicate AnswersDigest(c: Context, row: UsageRow, call: Call, response: Event) {
    row.Call() == Some(call.callId) && row.responseId.Some?
        && response.data.providerResponseIdDigest == Str(c.sha256(row.responseId.value))
  }

  predicate ResponseReported(c: Context, usage: seq<UsageRow>, call: Call, rows: seq<Event>, e: Event, i: Issue) {
    if !BoundResponse(rows, e) then i == InvalidResponseBinding(call, e.seqNo)
    else && i == BoundResponseUsageUnknown(call, e.seqNo)
         && !SomeUsage(c, usage, call.source, call.attempt, (row: UsageRow) => AnswersDigest(c, row, call, e))
  }

  predicate CallReported(c: Context, usage: seq<UsageRow>, call: Call, rows: seq<Event>, i: Issue) {
    var finishes, responses := InPhase(rows, "call_finished"), InPhase(rows, "response_observed");
    || (i == UnsettledCall(call) && !CallSettled(rows))
    || (i == AttemptMembershipUnknown(call)
        && exists e :: e in finishes && (e.data.attemptCount != Num(1.0) || e.data.failedAttemptCount != Num(0.0)))
    || (i == HostCallUsageUnknown(call)
        && !SomeUsage(c, usage, call.source, call.attempt, (row: UsageRow) => row.Call() == Some(call.callId)))
    || (exists e :: e in responses && ResponseReported(c, usage, call, rows, e, i))
    || (i == ConflictingResponseBinding(call) && finishes != [] && finishes[0].data.attemptCount == Num(1.0)
        && (|responses| > 1 || exists e :: e in responses && e.data.attempt != Num(1.0)))
  }

  // ---------------------------------------------------------------- events and streams

  function EventIssues(c: Context, e: Event): (issues: set<Issue>)
    ensures forall i :: i in issues <==> EventReported(c, e, i)
  {
    var source := SourceOf(e.data.sourceUserSeq);
    if !InScope(c, e.data.sourceUserSeq, e.data.runAttemptId) then {}
    else if !OwnedEvent(c, e) then {InvalidOwnership(e.seqNo)}
    else if StepOf(c, e).None? then {CallIdentityUnknown(source, e.seqNo)}
    else (if FailedAttempt(e) then {FailedAttemptUnknown(source)} else {})
         + (if CallPhase(e) && !Exact(e.data.callId) then {CallIdentityUnknown(source, e.seqNo)} else {})
  }

  /** Which call each host call id was seen for. */
  ghost function Hosts(c: Context, events: seq<Event>): set<(string, Call)> {
    set e | e in events && CallOf(c)(e).Some? :: (CallOf(c)(e).value.callId, CallOf(c)(e).value)
  }

  ghost function StepsOf(c: Context, events: seq<Event>): set<HostStep> {
    set e | e in events && InScope(c, e.data.sourceUserSeq, e.data.runAttemptId) && StepOf(c, e).Some? ::
        StepOf(c, e).value
  }

  ghost predicate EventsReported(c: Context, events: seq<Event>, n: nat, issues: set<Issue>)
    requires n <= |events|
  {
    forall i :: i in issues <==> exists m :: 0 <= m < n && EventReported(c, events[m], i)
  }

  lemma EventsReportedStep(c: Context, events: seq<Event>, n: nat, issues: set<Issue>)
    requires n < |events| && EventsReported(c, events, n, issues)
    ensures EventsReported(c, events, n + 1, issues + EventIssues(c, events[n]))
  {
    hide EventReported;
  }

  lemma HostsNext(c: Context, events: seq<Event>, e: Event)
    ensures Hosts(c, events + [e]) == Hosts(c, events) + if CallOf(c)(e).Some?
            then {(CallOf(c)(e).value.callId, CallOf(c)(e).value)} else {}
    ensures StepsOf(c, events + [e])
            == StepsOf(c, events) + if InScope(c, e.data.sourceUserSeq, e.data.runAttemptId)
                && StepOf(c, e).Some? then {StepOf(c, e).value} else {}
  {
    hide CallOf, StepOf, InScope;
    assert forall x :: x in events + [e] <==> x in events || x == e;
  }

  /** One pass over the host events: what each is reported for, whether two calls
      share a host id, and which steps were seen. */
  method ReadEvents(c: Context, events: seq<Event>) returns (issues: set<Issue>, conflict: bool, steps: set<HostStep>)
    ensures EventsReported(c, events, |events|, issues)
    ensures conflict <==> ContestedKeys(Hosts(c, events)) != {}
    ensures steps == StepsOf(c, events)
  {
    hide EventsReported, EventIssues, CallOf, StepOf, InScope, ContestedKeys, Tracks, Hosts, StepsOf;
    issues, conflict, steps := {}, false, {};
    var groupByHostId: map<string, Call> := map[];
    NothingRead(c, events);
    for n := 0 to |events|
      invariant EventsReported(c, events, n, issues)
      invariant Tracks(Hosts(c, events[..n]), groupByHostId)
      invariant conflict <==> ContestedKeys(Hosts(c, events[..n])) != {}
      invariant steps == StepsOf(c, events[..n])
    {
      var e := events[n];
      assert events[..n + 1] == events[..n] + [e];
      EventsReportedStep(c, events, n, issues);
      HostsNext(c, events[..n], e);
      issues := issues + EventIssues(c, e);
      if InScope(c, e.data.sourceUserSeq, e.data.runAttemptId) && StepOf(c, e).Some? {
        steps := steps + {StepOf(c, e).value};
      }
      var call := CallOf(c)(e);
      if call.Some? {
        ObserveOwner(Hosts(c, events[..n]), groupByHostId, call.value.callId, call.value);
        ObserveIdentity(Hosts(c, events[..n]), groupByHostId, call.value.callId, call.value);
        ghost var contested := ContestedKeys(Hosts(c, events[..n]));
        if call.value.callId in groupByHostId && groupByHostId[call.value.callId] != call.value {
          conflict := true;
          assert call.value.callId in contested + {call.value.callId};
        } else {
          assert contested + {} == contested;
        }
        groupByHostId := groupByHostId[call.value.callId := call.value];
      } else {
        assert Hosts(c, events[..n]) + {} == Hosts(c, events[..n]);
      }
    }
    assert events[..|events|] == events;
  }

  lemma NothingRead(c: Context, events: seq<Event>)
    ensures EventsReported(c, events, 0, {}) && Hosts(c, []) == {} && StepsOf(c, []) == {}
    ensures Tracks<string, Call>({}, map[]) && ContestedKeys<string, Call>({}) == {}
  {
  }

  function StreamIssues(c: Context, usage: seq<UsageRow>, s: Stream): (issues: set<Issue>)
    ensures forall i :: i in issues <==> StreamReported(c, usage, s, i)
  {
    var source := SourceOf(s.sourceUserSeq);
    if !InScope(c, s.sourceUserSeq, s.attemptId) then {}
    else if !OwnedStream(c, s) then {InvalidOwnership(s.seqNo)}
    else (if s.settlement != Str("completed") || s.sawResponseDone != Bool(true)
          then {UnsettledResponse(source, s.seqNo)} else {})
         + if !Exact(s.responseId) then {ResponseIdentityUnknown(source, s.seqNo)}
           else if SomeUsage(c, usage, source, s.attemptId.s, (row: UsageRow) => NamesResponse(row, s.responseId.s))
                   then {}
           else {ResponseWithoutUsage(source, s.seqNo)}
  }

  ghost predicate StreamsReported(c: Context, usage: seq<UsageRow>, streams: seq<Stream>, n: nat, issues: set<Issue>)
    requires n <= |streams|
  {
    forall i :: i in issues <==> exists m :: 0 <= m < n && StreamReported(c, usage, streams[m], i)
  }

  lemma StreamsReportedStep(c: Context, usage: seq<UsageRow>, streams: seq<Stream>, n: nat, issues: set<Issue>)
    requires n < |streams| && StreamsReported(c, usage, streams, n, issues)
    ensures StreamsReported(c, usage, streams, n + 1, issues + StreamIssues(c, usage, streams[n]))
  {
    hide StreamReported;
  }

  /** The identified provider response of an owned stream. */
  function ResponseOf(c: Context, s: Stream): Option<ProviderResponse> {
    if InScope(c, s.sourceUserSeq, s.attemptId) && OwnedStream(c, s) && Exact(s.responseId)
    then Some(ProviderResponse(SourceOf(s.sourceUserSeq), s.attemptId.s, s.responseId.s)) else None
  }

  function Responses(c: Context, streams: seq<Stream>): (r: seq<ProviderResponse>)
    ensures forall x :: x in r <==> exists s :: s in streams && ResponseOf(c, s) == Some(x)
  {
    if streams == [] then []
    else
      var last := streams[|streams| - 1];
      Responses(c, streams[..|streams| - 1]) + if ResponseOf(c, last).Some? then [ResponseOf(c, last).value] else []
  }

  /** The attempts that a provider answered. */
  function ProviderAttempts(c: Context, streams: seq<Stream>): set<(nat, string)> {
    set s | s in streams && InScope(c, s.sourceUserSeq, s.attemptId) && OwnedStream(c, s) ::
        (SourceOf(s.sourceUserSeq), TextOf(s.attemptId))
  }

  lemma NothingStreamed(c: Context, usage: seq<UsageRow>, streams: seq<Stream>)
    ensures StreamsReported(c, usage, streams, 0, {})
  {
  }

  method ReadStreams(c: Context, usage: seq<UsageRow>, streams: seq<Stream>)
    returns (issues: set<Issue>, responses: seq<ProviderResponse>, attempts: set<(nat, string)>)
    ensures StreamsReported(c, usage, streams, |streams|, issues)
    ensures responses == Responses(c, streams) && attempts == ProviderAttempts(c, streams)
  {
    hide StreamsReported, StreamIssues, InScope, OwnedStream, ResponseOf;
    issues, responses, attempts := {}, [], {};
    NothingStreamed(c, usage, streams);
    for n := 0 to |streams|
      invariant StreamsReported(c, usage, streams, n, issues)
      invariant responses == Responses(c, streams[..n]) && attempts == ProviderAttempts(c, streams[..n])
    {
      var s := streams[n];
      assert streams[..n + 1] == streams[..n] + [s] && streams[..n + 1][..n] == streams[..n];
      StreamsReportedStep(c, usage, streams, n, issues);
      issues := issues + StreamIssues(c, usage, s);
      if ResponseOf(c, s).Some? {
        responses := responses + [ResponseOf(c, s).value];
      }
      if InScope(c, s.sourceUserSeq, s.attemptId) && OwnedStream(c, s) {
        attempts := attempts + {(SourceOf(s.sourceUserSeq), TextOf(s.attemptId))};
      }
    }
    assert streams[..|streams|] == streams;
  }

  // ---------------------------------------------------------------- calls

  function ResponseIssues(c: Context, usage: seq<UsageRow>, call: Call, rows: seq<Event>,
      responses: seq<Event>): (issues: set<Issue>)
    ensures forall i :: i in issues <==> exists e :: e in responses && ResponseReported(c, usage, call, rows, e, i)
  {
    hide SomeUsage, BoundResponse;
    var invalid := set e | e in responses && !BoundResponse(rows, e) :: InvalidResponseBinding(call, e.seqNo);
    var unknown := set e | e in responses
        && ResponseReported(c, usage, call, rows, e, BoundResponseUsageUnknown(call, e.seqNo))
                         :: BoundResponseUsageUnknown(call, e.seqNo);
    invalid + unknown
  }

  function CallIssues(c: Context, usage: seq<UsageRow>, call: Call, rows: seq<Event>): (issues: set<Issue>)
    ensures forall i :: i in issues <==> CallReported(c, usage, call, rows, i)
  {
    hide CallSettled, SomeUsage, ResponseReported, ResponseIssues;
    var finishes, responses := InPhase(rows, "call_finished"), InPhase(rows, "response_observed");
    (if CallSettled(rows) then {} else {UnsettledCall(call)})
    + (if exists e :: e in finishes && (e.data.attemptCount != Num(1.0) || e.data.failedAttemptCount != Num(0.0))
       then {AttemptMembershipUnknown(call)} else {})
    + (if SomeUsage(c, usage, call.source, call.attempt, (row: UsageRow) => row.Call() == Some(call.callId))
       then {} else {HostCallUsageUnknown(call)})
    + ResponseIssues(c, usage, call, rows, responses)
    + (if finishes != [] && finishes[0].data.attemptCount == Num(1.0)
          && (|responses| > 1 || exists e :: e in responses && e.data.attempt != Num(1.0))
       then {ConflictingResponseBinding(call)} else {})
  }

  /** The reports about the calls `done` are exactly these. */
  ghost predicate CallsReported(c: Context, usage: seq<UsageRow>, calls: Calls, done: set<Call>, issues: set<Issue>) {
    forall i :: i in issues <==> exists call ::
                                   call in done && call in calls && CallReported(c, usage, call, calls[call], i)
  }

  lemma CallsReportedStep(c: Context, usage: seq<UsageRow>, calls: Calls, done: set<Call>, issues: set<Issue>,
      call: Call)
    requires call in calls && CallsReported(c, usage, calls, done, issues)
    ensures CallsReported(c, usage, calls, done + {call}, issues + CallIssues(c, usage, call, calls[call]))
  {
    hide CallReported;
  }

  lemma NoCallsReported(c: Context, usage: seq<UsageRow>, calls: Calls)
    ensures CallsReported(c, usage, calls, {}, {})
  {
  }

  method CheckCalls(c: Context, usage: seq<UsageRow>, calls: Calls) returns (issues: set<Issue>)
    ensures CallsReported(c, usage, calls, calls.Keys, issues)
  {
    hide CallsReported, CallIssues;
    issues := {};
    var todo := calls.Keys;
    assert calls.Keys - todo == {};
    NoCallsReported(c, usage, calls);
    while todo != {}
      invariant todo <= calls.Keys
      invariant CallsReported(c, usage, calls, calls.Keys - todo, issues)
    {
      var call :| call in todo;
      assert calls.Keys - (todo - {call}) == calls.Keys - todo + {call};
      CallsReportedStep(c, usage, calls, calls.Keys - todo, issues, call);
      issues, todo := issues + CallIssues(c, usage, call, calls[call]), todo - {call};
    }
    assert calls.Keys - todo == calls.Keys;
  }

  // ---------------------------------------------------------------- memberships and bridges

  function StepOfCall(call: Call): HostStep {
    HostStep(call.source, call.attempt, call.stepId, call.ordinal)
  }

  predicate StepCalled(calls: set<Call>, step: HostStep) {
    exists call :: call in calls && StepOfCall(call) == step
  }

  predicate AttemptCalled(calls: set<Call>, attempt: (nat, string)) {
    exists call :: call in calls && (call.source, call.attempt) == attempt
  }

  function MembershipIssues(steps: set<HostStep>, attempts: set<(nat, string)>, calls: set<Call>): set<Issue> {
    (set step | step in steps && !StepCalled(calls, step) :: MembershipUnknown(step.source))
    + (set a | a in attempts && !AttemptCalled(calls, a) :: MembershipUnknown(a.0))
  }

  function HostCalls(calls: set<Call>): set<HostCall> {
    set call | call in calls :: HostCall(call.source, call.attempt, call.callId)
  }

  function CertifiedRows(c: Context, usage: seq<UsageRow>): (r: seq<UsageRow>)
    ensures forall row :: row in r <==> row in usage && Certified(c, row)
  {
    if usage == [] then []
    else CertifiedRows(c, usage[..|usage| - 1]) + if Certified(c, usage[|usage| - 1]) then [usage[|usage| - 1]] else []
  }

  /** A response of an attempt with calls has no bridge to any of them. */
  ghost predicate Unbridged(c: Context, usage: seq<UsageRow>, calls: set<Call>, r: ProviderResponse) {
    && AttemptCalled(calls, (r.source, r.attempt))
    && forall row | row in usage && Certified(c, row) :: !Bridging(c.sessionId, HostCalls(calls), r, row)
  }

  /** The certified bridges between provider responses and host calls. */
  ghost function Relation(c: Context, streams: seq<Stream>, usage: seq<UsageRow>,
      calls: set<Call>): set<Bridge<(nat, string)>> {
    MainRelation(c.sessionId, HostCalls(calls), Responses(c, streams), CertifiedRows(c, usage))
  }

  ghost predicate BridgeReported(c: Context, streams: seq<Stream>, usage: seq<UsageRow>, calls: set<Call>, i: Issue) {
    || (exists s :: s in streams && ResponseOf(c, s).Some? && i == BridgeUnknown(SourceOf(s.sourceUserSeq), s.seqNo)
                    && Unbridged(c, usage, calls, ResponseOf(c, s).value))
    || (i == ConflictingBridge && !OneToOne(Relation(c, streams, usage, calls)))
  }

  lemma UnknownAreUnbridged(c: Context, usage: seq<UsageRow>, calls: set<Call>, responses: seq<ProviderResponse>,
      unknown: set<ProviderResponse>)
    requires unknown == set r | r in responses
                                && (exists call ::
                                      call in HostCalls(calls) && call.source == r.source && call.attempt == r.attempt)
                                && forall row | row in CertifiedRows(c, usage) ::
                                     !Bridging(c.sessionId, HostCalls(calls), r, row)
    ensures forall r :: r in unknown <==> r in responses && Unbridged(c, usage, calls, r)
  {
    hide Bridging;
    forall r: ProviderResponse ensures AttemptCalled(calls, (r.source, r.attempt))
                     <==> exists call ::
                            call in HostCalls(calls) && call.source == r.source && call.attempt == r.attempt {
      if call :| call in calls && (call.source, call.attempt) == (r.source, r.attempt) {
        assert HostCall(call.source, call.attempt, call.callId) in HostCalls(calls);
      }
    }
  }

  method CheckBridges(c: Context, streams: seq<Stream>, usage: seq<UsageRow>, calls: set<Call>,
      responses: seq<ProviderResponse>)
      returns (issues: set<Issue>)
    requires responses == Responses(c, streams)
    ensures forall i :: i in issues <==> BridgeReported(c, streams, usage, calls, i)
  {
    var conflicts, unknown := MainBridgeConflicts(c.sessionId, HostCalls(calls), responses, CertifiedRows(c, usage));
    UnknownAreUnbridged(c, usage, calls, responses, unknown);
    hide Unbridged, OneToOne, HostCalls, MainRelation, ResponseOf;
    issues := (set s | s in streams && ResponseOf(c, s).Some? && ResponseOf(c, s).value in unknown ::
        BridgeUnknown(SourceOf(s.sourceUserSeq), s.seqNo))
              + if conflicts == {} then {} else {ConflictingBridge};
  }

  // ---------------------------------------------------------------- the whole pass

  ghost predicate CoverageReported(c: Context, events: seq<Event>, streams: seq<Stream>, usage: seq<UsageRow>,
      calls: Calls, i: Issue) {
    || (exists e :: e in events && EventReported(c, e, i))
    || (exists s :: s in streams && StreamReported(c, usage, s, i))
    || (i == ConflictingHostCall && ContestedKeys(Hosts(c, events)) != {})
    || (exists call :: call in calls && CallReported(c, usage, call, calls[call], i))
    || i in MembershipIssues(StepsOf(c, events), ProviderAttempts(c, streams), calls.Keys)
    || BridgeReported(c, streams, usage, calls.Keys, i)
  }

  lemma EventsReportedAll(c: Context, events: seq<Event>, issues: set<Issue>, i: Issue)
    requires EventsReported(c, events, |events|, issues)
    ensures i in issues <==> exists e :: e in events && EventReported(c, e, i)
  {
    hide EventReported;
    if e :| e in events && EventReported(c, e, i) {
      var m :| 0 <= m < |events| && events[m] == e;
    }
  }

  lemma StreamsReportedAll(c: Context, usage: seq<UsageRow>, streams: seq<Stream>, issues: set<Issue>, i: Issue)
    requires StreamsReported(c, usage, streams, |streams|, issues)
    ensures i in issues <==> exists s :: s in streams && StreamReported(c, usage, s, i)
  {
    hide StreamReported;
    if s :| s in streams && StreamReported(c, usage, s, i) {
      var m :| 0 <= m < |streams| && streams[m] == s;
    }
  }

  lemma CallsReportedAll(c: Context, usage: seq<UsageRow>, calls: Calls, issues: set<Issue>, i: Issue)
    requires CallsReported(c, usage, calls, calls.Keys, issues)
    ensures i in issues <==> exists call :: call in calls && CallReported(c, usage, call, calls[call], i)
  {
    hide CallReported;
  }

  /** Every kind of issue is raised if and only if its cause exists. */
  method CheckCoverage(c: Context, events: seq<Event>, streams: seq<Stream>, usage: seq<UsageRow>)
      returns (issues: set<Issue>, calls: Calls)
    ensures Grouped(events, CallOf(c), calls)
    ensures forall i :: i in issues <==> CoverageReported(c, events, streams, usage, calls, i)
  {
    calls := Group(events, CallOf(c));
    var eventIssues, conflict, steps := ReadEvents(c, events);
    var streamIssues, responses, attempts := ReadStreams(c, usage, streams);
    var callIssues := CheckCalls(c, usage, calls);
    var bridgeIssues := CheckBridges(c, streams, usage, calls.Keys, responses);
    hide *;
    var membership := MembershipIssues(steps, attempts, calls.Keys);
    issues := eventIssues + streamIssues + callIssues + bridgeIssues + membership + if conflict
        then {ConflictingHostCall} else {};
    forall i ensures i in issues <==> CoverageReported(c, events, streams, usage, calls, i) {
      EventsReportedAll(c, events, eventIssues, i);
      StreamsReportedAll(c, usage, streams, streamIssues, i);
      CallsReportedAll(c, usage, calls, callIssues, i);
      CoverageReportedMeans(c, events, streams, usage, calls, i);
    }
  }

  lemma CoverageReportedMeans(c: Context, events: seq<Event>, streams: seq<Stream>, usage: seq<UsageRow>, calls: Calls,
      i: Issue)
    ensures CoverageReported(c, events, streams, usage, calls, i)
            <==> || (exists e :: e in events && EventReported(c, e, i))
                 || (exists s :: s in streams && StreamReported(c, usage, s, i))
                 || (i == ConflictingHostCall && ContestedKeys(Hosts(c, events)) != {})
                 || (exists call :: call in calls && CallReported(c, usage, call, calls[call], i))
                 || i in MembershipIssues(StepsOf(c, events), ProviderAttempts(c, streams), calls.Keys)
                 || BridgeReported(c, streams, usage, calls.Keys, i)
  {
  }

  // ---------------------------------------------------------------- full coverage

  /** Every observation of these sources is owned and identified, and nothing was
      retried or aborted; every step has a call. */
  ghost predicate EventsExplained(c: Context, events: seq<Event>, calls: set<Call>) {
    && (forall e | e in events && InScope(c, e.data.sourceUserSeq, e.data.runAttemptId) ::
          StepOf(c, e).Some? && !FailedAttempt(e) && (CallPhase(e) ==> CallOf(c)(e).Some?)
              && StepCalled(calls, StepOf(c, e).value))
    && forall a, b | a in calls && b in calls && a.callId == b.callId :: a == b
  }

  /** Every call settled in one attempt, and certified rows carry its id and the
      digests of its responses. */
  ghost predicate CallsExplained(c: Context, usage: seq<UsageRow>, calls: Calls) {
    forall call, i | call in calls :: !CallReported(c, usage, call, calls[call], i)
  }

  /** Every provider response is owned, settled and identified, and a certified
      row bridges it to a host call of its attempt. */
  ghost predicate StreamExplained(c: Context, usage: seq<UsageRow>, calls: set<Call>, s: Stream) {
    && ResponseOf(c, s).Some? && s.settlement == Str("completed") && s.sawResponseDone == Bool(true)
    && exists row ::
         row in usage && Certified(c, row) && Bridging(c.sessionId, HostCalls(calls), ResponseOf(c, s).value, row)
  }

  ghost predicate Explained(c: Context, events: seq<Event>, streams: seq<Stream>, usage: seq<UsageRow>, calls: Calls) {
    && EventsExplained(c, events, calls.Keys) && CallsExplained(c, usage, calls)
    && (forall s | s in streams && InScope(c, s.sourceUserSeq, s.attemptId) :: StreamExplained(c, usage, calls.Keys, s))
    && OneToOne(Relation(c, streams, usage, calls.Keys))
  }

  lemma EventQuiet(c: Context, e: Event)
    ensures (forall i :: !EventReported(c, e, i))
            <==> InScope(c, e.data.sourceUserSeq, e.data.runAttemptId) ==>
                   StepOf(c, e).Some? && !FailedAttempt(e) && (CallPhase(e) ==> CallOf(c)(e).Some?)
  {
    var source := SourceOf(e.data.sourceUserSeq);
    if forall i :: !EventReported(c, e, i) {
      assert !EventReported(c, e, InvalidOwnership(e.seqNo))
             && !EventReported(c, e, CallIdentityUnknown(source, e.seqNo));
      assert !EventReported(c, e, FailedAttemptUnknown(source));
    }
    hide FailedAttempt, InScope, Owned, CallPhase;
  }

  lemma StreamQuiet(c: Context, usage: seq<UsageRow>, s: Stream)
    ensures (forall i :: !StreamReported(c, usage, s, i))
            <==> InScope(c, s.sourceUserSeq, s.attemptId) ==>
                   && ResponseOf(c, s).Some? && s.settlement == Str("completed") && s.sawResponseDone == Bool(true)
                   && SomeUsage(c, usage, SourceOf(s.sourceUserSeq), s.attemptId.s,
                                (row: UsageRow) => NamesResponse(row, s.responseId.s))
  {
    var source := SourceOf(s.sourceUserSeq);
    if forall i :: !StreamReported(c, usage, s, i) {
      assert !StreamReported(c, usage, s, InvalidOwnership(s.seqNo))
             && !StreamReported(c, usage, s, UnsettledResponse(source, s.seqNo));
      assert !StreamReported(c, usage, s, ResponseIdentityUnknown(source, s.seqNo))
          && !StreamReported(c, usage, s, ResponseWithoutUsage(source, s.seqNo));
    }
    hide InScope, SomeUsage;
  }

  /** The calls are those of the events, so host ids are uncontested exactly when
      no two calls share one. */
  lemma HostsUncontested(c: Context, events: seq<Event>, calls: Calls)
    requires Grouped(events, CallOf(c), calls)
    ensures ContestedKeys(Hosts(c, events)) == {}
            <==> forall a, b | a in calls && b in calls && a.callId == b.callId :: a == b
  {
    GroupsAre(events, CallOf(c), calls);
    hide CallOf;
    var hosts := Hosts(c, events);
    forall call: Call ensures call in calls <==> (call.callId, call) in hosts {
      if call in calls {
        var e := calls[call][0];
        assert e in calls[call];
        assert CallOf(c)(e) == Some(call);
      }
      if (call.callId, call) in hosts {
        var e :| e in events && CallOf(c)(e).Some? && CallOf(c)(e).value == call;
        assert CallOf(c)(e) == Some(call);
      }
    }
    hide Hosts, Grouped;
    forall p | p in hosts ensures p.0 == p.1.callId && p.1 in calls {
      HostsKeyed(c, events, p);
    }
    if a, b :| a in calls && b in calls && a.callId == b.callId && a != b {
      assert Contested(hosts, (a.callId, a)) by {
        assert (b.callId, b) in hosts;
      }
      assert a.callId in ContestedKeys(hosts);
    }
  }

  lemma HostsKeyed(c: Context, events: seq<Event>, p: (string, Call))
    requires p in Hosts(c, events)
    ensures p.0 == p.1.callId
  {
    hide CallOf;
  }

  /** A bridging row is usage of the response's attempt, and names one of its calls. */
  lemma BridgeMeans(c: Context, usage: seq<UsageRow>, calls: set<Call>, s: Stream, row: UsageRow)
    requires ResponseOf(c, s).Some? && row in usage && Certified(c, row)
    requires Bridging(c.sessionId, HostCalls(calls), ResponseOf(c, s).value, row)
    ensures SomeUsage(c, usage, SourceOf(s.sourceUserSeq), s.attemptId.s,
                      (r: UsageRow) => NamesResponse(r, s.responseId.s))
    ensures AttemptCalled(calls, (SourceOf(s.sourceUserSeq), TextOf(s.attemptId)))
  {
    assert NamesResponse(row, s.responseId.s);
    hide InScope, Owned;
  }

  /** Given calls of the attempt, a stream is quiet and bridged, or it is not explained. */
  lemma StreamExplains(c: Context, streams: seq<Stream>, usage: seq<UsageRow>, calls: set<Call>, s: Stream)
    requires s in streams && InScope(c, s.sourceUserSeq, s.attemptId)
    ensures StreamExplained(c, usage, calls, s)
            <==> && (forall i :: !StreamReported(c, usage, s, i))
                 && AttemptCalled(calls, (SourceOf(s.sourceUserSeq), TextOf(s.attemptId)))
                 && !Unbridged(c, usage, calls, ResponseOf(c, s).GetOr(ProviderResponse(0, "", "")))
  {
    StreamQuiet(c, usage, s);
    if ResponseOf(c, s).Some? {
      forall row | row in usage && Certified(c, row) &&
                             Bridging(c.sessionId, HostCalls(calls), ResponseOf(c, s).value, row)
        ensures SomeUsage(c, usage, SourceOf(s.sourceUserSeq), s.attemptId.s,
                          (r: UsageRow) => NamesResponse(r, s.responseId.s))
        ensures AttemptCalled(calls, (SourceOf(s.sourceUserSeq), TextOf(s.attemptId)))
      {
        BridgeMeans(c, usage, calls, s, row);
      }
    }
    hide StreamReported, SomeUsage, Bridging, HostCalls, AttemptCalled, InScope, Owned;
  }

  ghost predicate NoReports(c: Context, events: seq<Event>, streams: seq<Stream>, usage: seq<UsageRow>, calls: Calls) {
    forall i :: !CoverageReported(c, events, streams, usage, calls, i)
  }

  lemma MembershipQuiet(c: Context, events: seq<Event>, streams: seq<Stream>, calls: set<Call>)
    ensures (forall i :: i !in MembershipIssues(StepsOf(c, events), ProviderAttempts(c, streams), calls))
            <==> (forall step | step in StepsOf(c, events) :: StepCalled(calls, step))
                 && forall a | a in ProviderAttempts(c, streams) :: AttemptCalled(calls, a)
  {
    hide StepsOf, ProviderAttempts, StepCalled, AttemptCalled;
    var steps, attempts := StepsOf(c, events), ProviderAttempts(c, streams);
    var issues := MembershipIssues(steps, attempts, calls);
    forall step | step in steps && !StepCalled(calls, step) ensures MembershipUnknown(step.source) in issues {
    }
    forall a | a in attempts && !AttemptCalled(calls, a) ensures MembershipUnknown(a.0) in issues {
    }
  }

  lemma BridgesQuiet(c: Context, streams: seq<Stream>, usage: seq<UsageRow>, calls: set<Call>)
    ensures (forall i :: !BridgeReported(c, streams, usage, calls, i))
            <==> OneToOne(Relation(c, streams, usage, calls))
                 && forall s | s in streams && ResponseOf(c, s).Some? ::
                      !Unbridged(c, usage, calls, ResponseOf(c, s).value)
  {
    hide OneToOne, Relation, ResponseOf, Unbridged;
    if forall i :: !BridgeReported(c, streams, usage, calls, i) {
      assert !BridgeReported(c, streams, usage, calls, ConflictingBridge);
      forall s | s in streams && ResponseOf(c, s).Some? ensures !Unbridged(c, usage, calls, ResponseOf(c, s).value) {
        assert !BridgeReported(c, streams, usage, calls, BridgeUnknown(SourceOf(s.sourceUserSeq), s.seqNo));
      }
    }
  }

  /** Without reports, every part is quiet. */
  lemma QuietParts(c: Context, events: seq<Event>, streams: seq<Stream>, usage: seq<UsageRow>, calls: Calls)
    ensures NoReports(c, events, streams, usage, calls)
            <==> && (forall e, i | e in events :: !EventReported(c, e, i))
                 && (forall s, i | s in streams :: !StreamReported(c, usage, s, i))
                 && ContestedKeys(Hosts(c, events)) == {} && CallsExplained(c, usage, calls)
                 && (forall i :: i !in MembershipIssues(StepsOf(c, events), ProviderAttempts(c, streams), calls.Keys))
                 && forall i :: !BridgeReported(c, streams, usage, calls.Keys, i)
  {
    hide EventReported, StreamReported, CallReported, BridgeReported, MembershipIssues, Hosts, ContestedKeys;
    if NoReports(c, events, streams, usage, calls) {
      assert !CoverageReported(c, events, streams, usage, calls, ConflictingHostCall);
      forall e, i | e in events ensures !EventReported(c, e, i) {
        assert !CoverageReported(c, events, streams, usage, calls, i);
      }
      forall s, i | s in streams ensures !StreamReported(c, usage, s, i) {
        assert !CoverageReported(c, events, streams, usage, calls, i);
      }
      forall call, i | call in calls ensures !CallReported(c, usage, call, calls[call], i) {
        assert !CoverageReported(c, events, streams, usage, calls, i);
      }
      forall i ensures i !in MembershipIssues(StepsOf(c, events), ProviderAttempts(c, streams), calls.Keys)
          && !BridgeReported(c, streams, usage, calls.Keys, i) {
        assert !CoverageReported(c, events, streams, usage, calls, i);
      }
    }
  }

  lemma EventsQuiet(c: Context, events: seq<Event>, calls: Calls)
    requires Grouped(events, CallOf(c), calls)
    ensures EventsExplained(c, events, calls.Keys)
            <==> && (forall e, i | e in events :: !EventReported(c, e, i)) && ContestedKeys(Hosts(c, events)) == {}
                 && forall step | step in StepsOf(c, events) :: StepCalled(calls.Keys, step)
  {
    HostsUncontested(c, events, calls);
    forall e | e in events {
      EventQuiet(c, e);
    }
    hide EventReported, Hosts, ContestedKeys, StepCalled, InScope, StepOf, FailedAttempt, CallPhase, CallOf, Grouped;
  }

  lemma StreamsQuiet(c: Context, streams: seq<Stream>, usage: seq<UsageRow>, calls: set<Call>)
    ensures (forall s | s in streams && InScope(c, s.sourceUserSeq, s.attemptId) :: StreamExplained(c, usage, calls, s))
            <==> && (forall s, i | s in streams :: !StreamReported(c, usage, s, i))
                 && (forall a | a in ProviderAttempts(c, streams) :: AttemptCalled(calls, a))
                 && forall s | s in streams && ResponseOf(c, s).Some? ::
                      !Unbridged(c, usage, calls, ResponseOf(c, s).value)
  {
    forall s | s in streams && InScope(c, s.sourceUserSeq, s.attemptId) {
      StreamExplains(c, streams, usage, calls, s);
    }
    forall s | s in streams {
      StreamQuiet(c, usage, s);
    }
    hide StreamReported, StreamExplained, SomeUsage, AttemptCalled, InScope, Owned, Unbridged;
  }

  /** Nothing is reported exactly when everything is explained. */
  lemma QuietIsExplained(c: Context, events: seq<Event>, streams: seq<Stream>, usage: seq<UsageRow>, calls: Calls)
    requires Grouped(events, CallOf(c), calls)
    ensures NoReports(c, events, streams, usage, calls) <==> Explained(c, events, streams, usage, calls)
  {
    QuietParts(c, events, streams, usage, calls);
    EventsQuiet(c, events, calls);
    MembershipQuiet(c, events, streams, calls.Keys);
    BridgesQuiet(c, streams, usage, calls.Keys);
    StreamsQuiet(c, streams, usage, calls.Keys);
    hide NoReports, EventReported, StreamReported, CallsExplained, EventsExplained, StreamExplained, BridgeReported;
    hide MembershipIssues, Hosts, ContestedKeys, StepsOf, ProviderAttempts, Relation, OneToOne, Unbridged, ResponseOf;
    hide InScope, CallOf, Grouped, StepCalled, AttemptCalled;
  }
}
