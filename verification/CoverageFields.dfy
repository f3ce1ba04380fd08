/** What it means that every observation of the main model is explained, read off
    the journal fields and the usage rows (scripts/session-comparison.ts,
    mainModelUsageCoverageIssues). */
module CoverageFields {
  import opened Bridges
  import opened CompletenessFields
  import opened Coverage
  import opened Groups
  import opened Identifiers
  import opened Json
  import opened Usage

  // ---------------------------------------------------------------- events

  /** The observation names a source of the task, or an attempt of one. */
  ghost predicate Concerns(c: Context, source: Value, attempt: Value) {
    || (exists n: nat :: Numbers(source, n) && n in c.sources)
    || (exists id :: attempt == Str(id) && ExactIdentity(id) && id in c.sourceByAttempt)
  }

  lemma ScopeIs(c: Context, source: Value, attempt: Value)
    ensures InScope(c, source, attempt) <==> Concerns(c, source, attempt)
  {
    PositiveIs(source);
    hide ExactIdentity, Value.PositiveSeq, Numbers;
    if source.PositiveSeq().Some? {
      assert Numbers(source, source.PositiveSeq().value);
    }
    if Exact(attempt) {
      assert attempt == Str(attempt.s);
    }
  }

  /** The event shows a failed, cancelled or aborted attempt. */
  ghost predicate ShowsFailure(e: Event) {
    || (exists x :: e.data.failedAttemptCount == Num(x) && x > 0.0)
    || e.data.requestAborted == Bool(true)
    || (e.data.phase == Str("attempt_finished") && e.data.outcome == Str("failed"))
    || ((e.data.phase == Str("call_finished") || e.data.phase == Str("host_step_finished"))
        && (e.data.outcome == Str("failed") || e.data.outcome == Str("cancelled")))
  }

  /** An event that concerns the task names one of its steps, of which some call is
      known, shows no failure, and names its call if it has one. */
  ghost predicate EventSaid(c: Context, e: Event, calls: set<Call>) {
    Concerns(c, e.data.sourceUserSeq, e.data.runAttemptId) ==>
      && (exists call :: call in calls && NamesStep(c, e, call.source, call.attempt, call.stepId, call.ordinal))
      && !ShowsFailure(e)
      && (e.data.phase in {Str("call_started"), Str("response_observed"), Str("call_finished")} ==>
            exists call :: NamesCall(c, e, call))
  }

  lemma FailureIs(e: Event)
    ensures FailedAttempt(e) <==> ShowsFailure(e)
  {
    if e.data.failedAttemptCount.Num? {
      assert e.data.failedAttemptCount == Num(e.data.failedAttemptCount.x);
    }
  }

  lemma EventIs(c: Context, e: Event, calls: set<Call>)
    ensures EventSaid(c, e, calls) <==>
              (InScope(c, e.data.sourceUserSeq, e.data.runAttemptId) ==>
                 StepOf(c, e).Some? && !FailedAttempt(e) && (CallPhase(e) ==> CallOf(c)(e).Some?)
                 && StepCalled(calls, StepOf(c, e).value))
  {
    ScopeIs(c, e.data.sourceUserSeq, e.data.runAttemptId);
    FailureIs(e);
    NamedCall(c, e);
    if StepOf(c, e).Some? {
      StepCalledIs(c, calls, e);
    } else {
      forall call | call in calls {
        StepIs(c, e, HostStep(call.source, call.attempt, call.stepId, call.ordinal));
      }
    }
    hide InScope, Concerns, FailedAttempt, ShowsFailure, StepOf, NamesStep, CallOf, NamesCall, StepCalled;
  }

  lemma NamedCall(c: Context, e: Event)
    ensures CallOf(c)(e).Some? <==> exists call :: NamesCall(c, e, call)
  {
    forall call ensures CallOf(c)(e) == Some(call) <==> NamesCall(c, e, call) {
      CallIs(c, e, call);
    }
    hide CallOf, NamesCall;
    if CallOf(c)(e).Some? {
      assert CallOf(c)(e) == Some(CallOf(c)(e).value);
    }
  }

  // ---------------------------------------------------------------- usage rows

  /** A certified row names the source, its turn and the attempt. */
  ghost predicate RowFor(c: Context, row: UsageRow, source: nat, attempt: string, trace: Trace) {
    && c.accounting(row).certified && !c.accounting(row).invalid && row.trace == Some(trace)
    && trace.acceptedSource == Some(SourceKey(c.sessionId, source))
    && trace.logicalTurnId == Some("turn:" + Decimal(source)) && trace.attemptId == Some(attempt)
  }

  lemma UsageIs(c: Context, row: UsageRow, source: nat, attempt: string)
    ensures Certified(c, row) && UsageFor(c.sessionId, row, source, attempt)
            <==> exists trace :: RowFor(c, row, source, attempt, trace)
  {
    hide SourceKey, Decimal;
    if Certified(c, row) && UsageFor(c.sessionId, row, source, attempt) {
      assert RowFor(c, row, source, attempt, row.trace.value);
    }
  }

  // ---------------------------------------------------------------- calls

  ghost predicate Once(c: Context, events: seq<Event>, call: Call, phase: string, e: Event) {
    e in events && InCall(c, call, phase)(e) && Count(events, InCall(c, call, phase)) == 1
  }

  /** The response lies inside the call, is its first attempt, and a certified row
      of the call has its digest. */
  ghost predicate ResponseSaid(c: Context, usage: seq<UsageRow>, call: Call, start: Event, finish: Event, e: Event) {
    && start.seqNo < e.seqNo < finish.seqNo && e.data.attempt == Num(1.0)
    && exists row, trace, id ::
         && row in usage && RowFor(c, row, call.source, call.attempt, trace) && trace.modelCallId == Some(call.callId)
         && row.responseId == Some(id) && Digest(c.sha256(id))
         && e.data.providerResponseIdDigest == Str(c.sha256(id))
  }

  /** The call started and returned once, in one physical attempt, a certified row
      has its id, and it has at most one response. */
  ghost predicate CallSaid(c: Context, events: seq<Event>, usage: seq<UsageRow>, call: Call) {
    exists start, finish ::
      && Once(c, events, call, "call_started", start) && Once(c, events, call, "call_finished", finish)
      && start.seqNo < finish.seqNo && finish.data.outcome == Str("returned")
      && finish.data.attemptCount == Num(1.0) && finish.data.failedAttemptCount == Num(0.0)
      && (exists row, trace :: row in usage && RowFor(c, row, call.source, call.attempt, trace)
                               && trace.modelCallId == Some(call.callId))
      && Count(events, InCall(c, call, "response_observed")) <= 1
      && forall e | e in events && InCall(c, call, "response_observed")(e) ::
           ResponseSaid(c, usage, call, start, finish, e)
  }

  lemma OnceIs(c: Context, events: seq<Event>, call: Call, phase: string, e: Event)
    ensures Once(c, events, call, phase, e) <==>
              var r := InPhase(Members(events, CallOf(c), call), phase); |r| == 1 && r[0] == e
  {
    PhaseCounts(c, events, call, phase);
    hide Members, CallOf, InPhase, Count, NamesCall;
    SoleElement(InPhase(Members(events, CallOf(c), call), phase));
  }

  /** Nothing is reported of the call. */
  ghost predicate Quiet(c: Context, usage: seq<UsageRow>, call: Call, rows: seq<Event>) {
    forall i :: !CallReported(c, usage, call, rows, i)
  }

  lemma QuietIs(c: Context, usage: seq<UsageRow>, call: Call, rows: seq<Event>)
    ensures var finishes, responses := InPhase(rows, "call_finished"), InPhase(rows, "response_observed");
            Quiet(c, usage, call, rows) <==>
              && CallSettled(rows)
              && (forall e | e in finishes :: e.data.attemptCount == Num(1.0) && e.data.failedAttemptCount == Num(0.0))
              && SomeUsage(c, usage, call.source, call.attempt, (row: UsageRow) => row.Call() == Some(call.callId))
              && (forall e | e in responses ::
                    BoundResponse(rows, e)
                    && SomeUsage(c, usage, call.source, call.attempt,
                                 (row: UsageRow) => AnswersDigest(c, row, call, e)))
              && !(finishes != [] && finishes[0].data.attemptCount == Num(1.0)
                   && (|responses| > 1 || exists e :: e in responses && e.data.attempt != Num(1.0)))
  {
    hide CallSettled, BoundResponse, SomeUsage, AnswersDigest, InPhase;
    var responses := InPhase(rows, "response_observed");
    if Quiet(c, usage, call, rows) {
      assert !CallReported(c, usage, call, rows, UnsettledCall(call));
      assert !CallReported(c, usage, call, rows, AttemptMembershipUnknown(call));
      assert !CallReported(c, usage, call, rows, HostCallUsageUnknown(call));
      assert !CallReported(c, usage, call, rows, ConflictingResponseBinding(call));
      forall e | e in responses ensures BoundResponse(rows, e)
          && SomeUsage(c, usage, call.source, call.attempt, (row: UsageRow) => AnswersDigest(c, row, call, e)) {
        assert !ResponseReported(c, usage, call, rows, e, InvalidResponseBinding(call, e.seqNo)) by {
          assert !CallReported(c, usage, call, rows, InvalidResponseBinding(call, e.seqNo));
        }
        assert !ResponseReported(c, usage, call, rows, e, BoundResponseUsageUnknown(call, e.seqNo)) by {
          assert !CallReported(c, usage, call, rows, BoundResponseUsageUnknown(call, e.seqNo));
        }
      }
    }
  }

  lemma HostRowIs(c: Context, usage: seq<UsageRow>, call: Call)
    ensures SomeUsage(c, usage, call.source, call.attempt, (row: UsageRow) => row.Call() == Some(call.callId)) <==>
              exists row, trace :: row in usage && RowFor(c, row, call.source, call.attempt, trace)
                                   && trace.modelCallId == Some(call.callId)
  {
    forall row ensures Certified(c, row) && UsageFor(c.sessionId, row, call.source, call.attempt)
        <==> exists trace :: RowFor(c, row, call.source, call.attempt, trace) {
      UsageIs(c, row, call.source, call.attempt);
    }
    forall row, trace | RowFor(c, row, call.source, call.attempt, trace) ensures row.Call() == trace.modelCallId {
    }
    hide Certified, UsageFor, RowFor;
  }

  lemma AnswerRowIs(c: Context, usage: seq<UsageRow>, call: Call, e: Event)
    ensures e.data.providerResponseIdDigest.Str? && Digest(e.data.providerResponseIdDigest.s)
            && SomeUsage(c, usage, call.source, call.attempt, (row: UsageRow) => AnswersDigest(c, row, call, e)) <==>
              exists row, trace, id ::
                && row in usage && RowFor(c, row, call.source, call.attempt, trace)
                && trace.modelCallId == Some(call.callId) && row.responseId == Some(id) && Digest(c.sha256(id))
                && e.data.providerResponseIdDigest == Str(c.sha256(id))
  {
    forall row ensures Certified(c, row) && UsageFor(c.sessionId, row, call.source, call.attempt)
        <==> exists trace :: RowFor(c, row, call.source, call.attempt, trace) {
      UsageIs(c, row, call.source, call.attempt);
    }
    forall row, trace | RowFor(c, row, call.source, call.attempt, trace) ensures row.Call() == trace.modelCallId {
    }
    hide Certified, UsageFor, RowFor, Digest;
    if SomeUsage(c, usage, call.source, call.attempt, (row: UsageRow) => AnswersDigest(c, row, call, e)) {
      var row :| row in usage && Certified(c, row) && UsageFor(c.sessionId, row, call.source, call.attempt)
          && AnswersDigest(c, row, call, e);
      var trace :| RowFor(c, row, call.source, call.attempt, trace);
      assert row.responseId == Some(row.responseId.value);
    }
  }

  /** Nothing is reported of a call exactly when its fields say that it was one
      settled attempt with its own certified usage. */
  lemma CallSaidIs(c: Context, events: seq<Event>, usage: seq<UsageRow>, call: Call)
    ensures Quiet(c, usage, call, Members(events, CallOf(c), call)) <==> CallSaid(c, events, usage, call)
  {
    hide InCall, Members, CallOf, InPhase, SomeUsage, Count, NamesCall, Digest, Quiet, ResponseSaid, Once;
    var rows := Members(events, CallOf(c), call);
    QuietIs(c, usage, call, rows);
    HostRowIs(c, usage, call);
    PhaseCounts(c, events, call, "response_observed");
    if Quiet(c, usage, call, rows) {
      var start, finish := InPhase(rows, "call_started")[0], InPhase(rows, "call_finished")[0];
      OnceIs(c, events, call, "call_started", start);
      OnceIs(c, events, call, "call_finished", finish);
      assert finish in InPhase(rows, "call_finished");
      forall e | e in InPhase(rows, "response_observed") ensures ResponseSaid(c, usage, call, start, finish, e) {
        ResponseIsSaid(c, events, usage, call, start, finish, e);
      }
    }
    if CallSaid(c, events, usage, call) {
      SaidIsQuiet(c, events, usage, call);
    }
  }

  lemma ResponseIsSaid(c: Context, events: seq<Event>, usage: seq<UsageRow>, call: Call, start: Event, finish: Event,
      e: Event)
    requires var rows := Members(events, CallOf(c), call);
             InPhase(rows, "call_started") == [start] && InPhase(rows, "call_finished") == [finish]
    ensures ResponseSaid(c, usage, call, start, finish, e) <==>
              && BoundResponse(Members(events, CallOf(c), call), e) && e.data.attempt == Num(1.0)
              && SomeUsage(c, usage, call.source, call.attempt, (row: UsageRow) => AnswersDigest(c, row, call, e))
  {
    AnswerRowIs(c, usage, call, e);
    hide SomeUsage, RowFor, Digest, Members, InPhase, CallOf;
    assert 1.0 == 1 as real;
  }

  /** A response is bound to its call exactly when it lies between the call's one start
      and its one finish, names a digest, and counts its attempts. */
  lemma BoundIs(c: Context, events: seq<Event>, call: Call, e: Event)
    ensures BoundResponse(Members(events, CallOf(c), call), e) <==>
              exists start, finish, digest, n: nat ::
                && Once(c, events, call, "call_started", start) && Once(c, events, call, "call_finished", finish)
                && start.seqNo < e.seqNo < finish.seqNo && Numbers(e.data.attempt, n)
                && e.data.providerResponseIdDigest == Str(digest) && Digest(digest)
  {
    hide Once, Digest, Members, InPhase, CallOf, Numbers, Value.PositiveSeq;
    var rows := Members(events, CallOf(c), call);
    PositiveIs(e.data.attempt);
    if BoundResponse(rows, e) {
      OnceIs(c, events, call, "call_started", InPhase(rows, "call_started")[0]);
      OnceIs(c, events, call, "call_finished", InPhase(rows, "call_finished")[0]);
      assert Numbers(e.data.attempt, e.data.attempt.PositiveSeq().value);
      assert e.data.providerResponseIdDigest == Str(e.data.providerResponseIdDigest.s);
    }
    if start, finish, digest, n: nat :|
       && Once(c, events, call, "call_started", start) && Once(c, events, call, "call_finished", finish)
       && start.seqNo < e.seqNo < finish.seqNo && Numbers(e.data.attempt, n)
       && e.data.providerResponseIdDigest == Str(digest) && Digest(digest) {
      OnceIs(c, events, call, "call_started", start);
      OnceIs(c, events, call, "call_finished", finish);
      assert e.data.attempt.PositiveSeq() == Some(n);
    }
  }

  lemma SaidIsQuiet(c: Context, events: seq<Event>, usage: seq<UsageRow>, call: Call)
    requires CallSaid(c, events, usage, call)
    ensures Quiet(c, usage, call, Members(events, CallOf(c), call))
  {
    hide InCall, Members, CallOf, InPhase, SomeUsage, Count, NamesCall, Digest, Quiet, ResponseSaid, Once, RowFor;
    hide AnswersDigest, BoundResponse;
    var rows := Members(events, CallOf(c), call);
    var start, finish :|
      && Once(c, events, call, "call_started", start) && Once(c, events, call, "call_finished", finish)
      && start.seqNo < finish.seqNo && finish.data.outcome == Str("returned")
      && finish.data.attemptCount == Num(1.0) && finish.data.failedAttemptCount == Num(0.0)
      && forall e | e in events && InCall(c, call, "response_observed")(e) ::
           ResponseSaid(c, usage, call, start, finish, e);
    OnceIs(c, events, call, "call_started", start);
    OnceIs(c, events, call, "call_finished", finish);
    assert InPhase(rows, "call_started") == [start] && InPhase(rows, "call_finished") == [finish];
    QuietIs(c, usage, call, rows);
    HostRowIs(c, usage, call);
    PhaseCounts(c, events, call, "response_observed");
    forall e | e in InPhase(rows, "response_observed")
      ensures BoundResponse(rows, e) && e.data.attempt == Num(1.0)
              && SomeUsage(c, usage, call.source, call.attempt, (row: UsageRow) => AnswersDigest(c, row, call, e)) {
      ResponseIsSaid(c, events, usage, call, start, finish, e);
    }
  }

  // ---------------------------------------------------------------- responses

  /** The certified row names the response, and a host call of its attempt. */
  ghost predicate BridgeSaid(c: Context, calls: set<Call>, row: UsageRow, source: nat, attempt: string, id: string) {
    exists trace, call: Call ::
      && RowFor(c, row, source, attempt, trace) && (row.responseId == Some(id) || call.callId == id)
      && call in calls && call.source == source && call.attempt == attempt && trace.modelCallId == Some(call.callId)
  }

  /** The provider response is complete and identified, and has such a bridge. */
  ghost predicate StreamSaid(c: Context, usage: seq<UsageRow>, calls: set<Call>, s: Stream) {
    exists source, attempt, id, row ::
      && ObservedFor(c, s.role, s.seqNo, s.sourceUserSeq, s.attemptId, source, attempt)
      && s.responseId == Str(id) && ExactIdentity(id)
      && s.settlement == Str("completed") && s.sawResponseDone == Bool(true)
      && row in usage && BridgeSaid(c, calls, row, source, attempt, id)
  }

  lemma BridgingIs(c: Context, calls: set<Call>, r: ProviderResponse, row: UsageRow)
    ensures Certified(c, row) && Bridging(c.sessionId, HostCalls(calls), r, row)
            <==> BridgeSaid(c, calls, row, r.source, r.attempt, r.responseId)
  {
    UsageIs(c, row, r.source, r.attempt);
    forall trace | RowFor(c, row, r.source, r.attempt, trace) ensures row.Call() == trace.modelCallId {
    }
    hide Certified, UsageFor, RowFor;
    if Certified(c, row) && Bridging(c.sessionId, HostCalls(calls), r, row) {
      var trace :| RowFor(c, row, r.source, r.attempt, trace);
      var call :| call in calls
          && HostCall(call.source, call.attempt, call.callId) == HostCall(r.source, r.attempt, row.Call().value);
      assert call.callId == row.Call().value;
    }
    if BridgeSaid(c, calls, row, r.source, r.attempt, r.responseId) {
      var trace, call: Call :|
        && RowFor(c, row, r.source, r.attempt, trace)
        && (row.responseId == Some(r.responseId) || call.callId == r.responseId)
        && call in calls && call.source == r.source && call.attempt == r.attempt
        && trace.modelCallId == Some(call.callId);
      assert HostCall(r.source, r.attempt, call.callId) in HostCalls(calls);
    }
  }

  lemma StreamIs(c: Context, usage: seq<UsageRow>, calls: set<Call>, s: Stream)
    ensures StreamExplained(c, usage, calls, s) <==> StreamSaid(c, usage, calls, s)
  {
    forall r ensures ResponseOf(c, s) == Some(r) <==>
        && ObservedFor(c, s.role, s.seqNo, s.sourceUserSeq, s.attemptId, r.source, r.attempt)
        && s.responseId == Str(r.responseId) && ExactIdentity(r.responseId) {
      ResponseIs(c, s, r);
    }
    hide ResponseOf, ObservedFor, ExactIdentity, Certified, Bridging, BridgeSaid;
    if StreamExplained(c, usage, calls, s) {
      var r := ResponseOf(c, s).value;
      assert ResponseOf(c, s) == Some(r);
      var row :| row in usage && Certified(c, row) && Bridging(c.sessionId, HostCalls(calls), r, row);
      BridgingIs(c, calls, r, row);
    }
    if StreamSaid(c, usage, calls, s) {
      var source, attempt, id, row :|
        && ObservedFor(c, s.role, s.seqNo, s.sourceUserSeq, s.attemptId, source, attempt)
        && s.responseId == Str(id) && ExactIdentity(id)
        && s.settlement == Str("completed") && s.sawResponseDone == Bool(true)
        && row in usage && BridgeSaid(c, calls, row, source, attempt, id);
      var r := ProviderResponse(source, attempt, id);
      assert ResponseOf(c, s) == Some(r);
      BridgingIs(c, calls, r, row);
    }
  }

  // ---------------------------------------------------------------- everything

  /** Everything is explained exactly when the fields of the events, the calls and
      the responses say so, no two calls share an id, and the certified bridges are
      one to one. */
  lemma ExplainedIs(c: Context, events: seq<Event>, streams: seq<Stream>, usage: seq<UsageRow>, calls: Calls)
    requires Grouped(events, CallOf(c), calls)
    ensures Explained(c, events, streams, usage, calls) <==>
              && (forall e | e in events :: EventSaid(c, e, calls.Keys))
              && (forall a, b | a in calls && b in calls && a.callId == b.callId :: a == b)
              && (forall call | call in calls :: CallSaid(c, events, usage, call))
              && (forall s | s in streams && Concerns(c, s.sourceUserSeq, s.attemptId) ::
                    StreamSaid(c, usage, calls.Keys, s))
              && OneToOne(Relation(c, streams, usage, calls.Keys))
  {
    hide *;
    EventsAre(c, events, calls.Keys);
    CallsAreSaid(c, events, usage, calls);
    StreamsAre(c, streams, usage, calls.Keys);
    ExplainedMeans(c, events, streams, usage, calls);
  }

  lemma ExplainedMeans(c: Context, events: seq<Event>, streams: seq<Stream>, usage: seq<UsageRow>, calls: Calls)
    ensures Explained(c, events, streams, usage, calls) <==>
              && EventsExplained(c, events, calls.Keys) && CallsExplained(c, usage, calls)
              && (forall s | s in streams && InScope(c, s.sourceUserSeq, s.attemptId) ::
                    StreamExplained(c, usage, calls.Keys, s))
              && OneToOne(Relation(c, streams, usage, calls.Keys))
  {
    hide EventsExplained, CallsExplained, StreamExplained, InScope, OneToOne, Relation;
  }

  lemma EventsAre(c: Context, events: seq<Event>, calls: set<Call>)
    ensures EventsExplained(c, events, calls) <==>
              && (forall e | e in events :: EventSaid(c, e, calls))
              && forall a, b | a in calls && b in calls && a.callId == b.callId :: a == b
  {
    forall e ensures EventSaid(c, e, calls) <==>
        (InScope(c, e.data.sourceUserSeq, e.data.runAttemptId) ==>
           StepOf(c, e).Some? && !FailedAttempt(e) && (CallPhase(e) ==> CallOf(c)(e).Some?)
           && StepCalled(calls, StepOf(c, e).value)) {
      EventIs(c, e, calls);
    }
    hide EventSaid, InScope, StepOf, FailedAttempt, CallPhase, CallOf, StepCalled;
  }

  lemma CallsAreSaid(c: Context, events: seq<Event>, usage: seq<UsageRow>, calls: Calls)
    requires Grouped(events, CallOf(c), calls)
    ensures CallsExplained(c, usage, calls) <==> forall call | call in calls :: CallSaid(c, events, usage, call)
  {
    forall call | call in calls ensures Quiet(c, usage, call, calls[call]) <==> CallSaid(c, events, usage, call) {
      CallRows(c, events, calls, call);
      CallSaidIs(c, events, usage, call);
    }
    hide CallSaid, CallReported;
    assert CallsExplained(c, usage, calls) <==> forall call | call in calls :: Quiet(c, usage, call, calls[call]);
  }

  lemma StreamsAre(c: Context, streams: seq<Stream>, usage: seq<UsageRow>, calls: set<Call>)
    ensures (forall s | s in streams && InScope(c, s.sourceUserSeq, s.attemptId) :: StreamExplained(c, usage, calls, s))
            <==> forall s | s in streams && Concerns(c, s.sourceUserSeq, s.attemptId) :: StreamSaid(c, usage, calls, s)
  {
    forall s {
      StreamIs(c, usage, calls, s);
    }
    forall s: Stream ensures InScope(c, s.sourceUserSeq, s.attemptId) <==> Concerns(c, s.sourceUserSeq, s.attemptId) {
      ScopeIs(c, s.sourceUserSeq, s.attemptId);
    }
    hide InScope, Concerns, StreamExplained, StreamSaid;
  }
}
