/** Which calls the completeness pass binds to which usage rows, read off the
    journal fields and the rows (scripts/session-comparison.ts,
    mainModelUsageCoverageIssues and acceptedUsageCompleteness). */
module CompletenessFields {
  import opened Bridges
  import opened Completeness
  import opened Coverage
  import opened Groups
  import opened Identifiers
  import opened Json
  import opened Usage

  /** The observation follows source `n`, in an attempt of its lineage. */
  ghost predicate ObservedFor(c: Context, role: string, seqNo: nat, source: Value, attempt: Value, n: nat, id: string) {
    && role == "system" && Numbers(source, n) && n in c.sources && n < seqNo
    && attempt == Str(id) && ExactIdentity(id) && id in c.sourceByAttempt && c.isAncestor(n, c.sourceByAttempt[id])
  }

  /** The event names the call's source, attempt, step and request. */
  ghost predicate NamesStep(c: Context, e: Event, source: nat, attempt: string, stepId: string, ordinal: nat) {
    && ObservedFor(c, e.role, e.seqNo, e.data.sourceUserSeq, e.data.runAttemptId, source, attempt)
    && e.data.version == Num(1.0) && e.data.stepId == Str(stepId) && ExactIdentity(stepId)
    && Numbers(e.data.requestOrdinal, ordinal)
  }

  ghost predicate NamesCall(c: Context, e: Event, call: Call) {
    && NamesStep(c, e, call.source, call.attempt, call.stepId, call.ordinal)
    && e.data.phase in {Str("call_started"), Str("response_observed"), Str("call_finished")}
    && e.data.callId == Str(call.callId) && ExactIdentity(call.callId)
  }

  lemma OwnedIs(c: Context, role: string, seqNo: nat, source: Value, attempt: Value, n: nat, id: string)
    ensures Owned(c, role, seqNo, source, attempt) && source.PositiveSeq() == Some(n) && attempt == Str(id)
            <==> ObservedFor(c, role, seqNo, source, attempt, n, id)
  {
    PositiveIs(source);
    hide ExactIdentity, Value.PositiveSeq, Numbers;
  }

  lemma StepIs(c: Context, e: Event, step: HostStep)
    ensures StepOf(c, e) == Some(step) <==> NamesStep(c, e, step.source, step.attempt, step.stepId, step.ordinal)
  {
    OwnedIs(c, e.role, e.seqNo, e.data.sourceUserSeq, e.data.runAttemptId, step.source, step.attempt);
    PositiveIs(e.data.requestOrdinal);
    hide ExactIdentity, Value.PositiveSeq, Numbers, ObservedFor;
    if StepOf(c, e) == Some(step) {
      assert Owned(c, e.role, e.seqNo, e.data.sourceUserSeq, e.data.runAttemptId);
      assert e.data.runAttemptId == Str(step.attempt);
    }
  }

  lemma CallIs(c: Context, e: Event, call: Call)
    ensures CallOf(c)(e) == Some(call) <==> NamesCall(c, e, call)
  {
    StepIs(c, e, HostStep(call.source, call.attempt, call.stepId, call.ordinal));
    hide ExactIdentity, StepOf, NamesStep;
  }

  /** The calls are exactly those that some event names, each with its events. */
  lemma CallsAre(c: Context, events: seq<Event>, calls: Calls, call: Call)
    requires Grouped(events, CallOf(c), calls)
    ensures call in calls <==> exists e :: e in events && NamesCall(c, e, call)
    ensures call in calls ==> forall e :: e in calls[call] <==> e in events && NamesCall(c, e, call)
    ensures call in calls ==> calls[call] == Members(events, CallOf(c), call)
  {
    GroupsAre(events, CallOf(c), calls);
    forall e {
      CallIs(c, e, call);
    }
    hide CallOf, NamesCall, Grouped;
    MembersAre(events, CallOf(c), call);
    assert GroupOf(calls, call) == Members(events, CallOf(c), call);
    if call in calls {
      assert calls[call][0] in calls[call];
    }
  }

  /** A step has a call exactly when some call has its source, attempt, step and
      request. */
  lemma StepCalledIs(c: Context, calls: set<Call>, e: Event)
    requires StepOf(c, e).Some?
    ensures StepCalled(calls, StepOf(c, e).value) <==>
              exists call :: call in calls && NamesStep(c, e, call.source, call.attempt, call.stepId, call.ordinal)
  {
    forall call | call in calls
      ensures StepOfCall(call) == StepOf(c, e).value
              <==> NamesStep(c, e, call.source, call.attempt, call.stepId, call.ordinal) {
      StepIs(c, e, HostStep(call.source, call.attempt, call.stepId, call.ordinal));
    }
    hide StepOf, NamesStep;
  }

  /** A stream is a response exactly when its own fields say which. */
  lemma ResponseIs(c: Context, s: Stream, r: ProviderResponse)
    ensures ResponseOf(c, s) == Some(r) <==>
              && ObservedFor(c, s.role, s.seqNo, s.sourceUserSeq, s.attemptId, r.source, r.attempt)
              && s.responseId == Str(r.responseId) && ExactIdentity(r.responseId)
  {
    OwnedIs(c, s.role, s.seqNo, s.sourceUserSeq, s.attemptId, r.source, r.attempt);
    hide ExactIdentity, ObservedFor;
    if ResponseOf(c, s) == Some(r) {
      assert s.attemptId == Str(r.attempt) && s.sourceUserSeq.PositiveSeq() == Some(r.source);
    }
  }

  // ---------------------------------------------------------------- bound calls

  ghost function InCall(c: Context, call: Call, phase: string): Event -> bool {
    (e: Event) => NamesCall(c, e, call) && e.data.phase == Str(phase)
  }

  /** The only event of the call in this phase, neither retired nor aborted. */
  ghost predicate SoleIn(c: Context, events: seq<Event>, call: Call, phase: string, e: Event) {
    && e in events && InCall(c, call, phase)(e) && Count(events, InCall(c, call, phase)) == 1
    && e.data.retired != Bool(true) && e.data.requestAborted != Bool(true)
  }

  /** The execution row names the call's source, turn, attempt and call id. */
  ghost predicate RowOfCall(c: Context, usage: seq<UsageRow>, nonExecution: set<nat>, call: Call, i: nat) {
    && i < |usage| && i !in nonExecution
    && exists trace :: usage[i].trace == Some(trace)
                       && trace.acceptedSource == Some(SourceKey(c.sessionId, call.source))
                       && trace.logicalTurnId == Some("turn:" + Decimal(call.source))
                       && trace.attemptId == Some(call.attempt) && trace.modelCallId == Some(call.callId)
  }

  /** The call started, answered and returned once, in this order, in one physical
      attempt; no other call has its id; and its one row is a certified success
      with the response of this digest. */
  ghost predicate BoundByFields(c: Context, events: seq<Event>, usage: seq<UsageRow>, nonExecution: set<nat>,
      calls: set<Call>, call: Call, i: nat) {
    && (forall other | other in calls && other.callId == call.callId :: other == call)
    && (exists start, response, finish ::
          Story(c, events, call, start, response, finish) && Answered(c, usage, response, i))
    && (forall j :: RowOfCall(c, usage, nonExecution, call, j) <==> j == i)
  }

  ghost predicate Story(c: Context, events: seq<Event>, call: Call, start: Event, response: Event, finish: Event) {
    && SoleIn(c, events, call, "call_started", start) && SoleIn(c, events, call, "response_observed", response)
    && SoleIn(c, events, call, "call_finished", finish) && start.seqNo < response.seqNo < finish.seqNo
    && finish.data.outcome == Str("returned") && finish.data.attemptCount == Num(1.0)
    && finish.data.failedAttemptCount == Num(0.0) && response.data.attempt == Num(1.0)
  }

  ghost predicate Answered(c: Context, usage: seq<UsageRow>, response: Event, i: nat) {
    && i < |usage| && usage[i].ok != Some(false) && c.accounting(usage[i]).certified
    && !c.accounting(usage[i]).invalid
    && exists id :: usage[i].responseId == Some(id) && ExactIdentity(id) && Digest(c.sha256(id))
                    && response.data.providerResponseIdDigest == Str(c.sha256(id))
  }

  lemma {:induction false} PhaseCounts(c: Context, events: seq<Event>, call: Call, phase: string)
    ensures |InPhase(Members(events, CallOf(c), call), phase)| == Count(events, InCall(c, call, phase))
    ensures forall e :: e in InPhase(Members(events, CallOf(c), call), phase) <==>
                          e in events && InCall(c, call, phase)(e)
  {
    if events != [] {
      var init, last := events[..|events| - 1], events[|events| - 1];
      PhaseCounts(c, init, call, phase);
      CallIs(c, last, call);
      var members := Members(init, CallOf(c), call);
      assert (members + [last])[..|members|] == members && members + [] == members;
      hide CallOf, NamesCall;
    }
  }

  lemma SoleElement(r: seq<Event>)
    ensures |r| == 1 ==> forall e :: e == r[0] <==> e in r
  {
    if |r| == 1 {
      assert r[0] in r;
    }
  }

  lemma SolePhase(c: Context, events: seq<Event>, call: Call, phase: string, e: Event)
    ensures SoleIn(c, events, call, phase, e) <==>
              var r := InPhase(Members(events, CallOf(c), call), phase);
              |r| == 1 && r[0] == e && Undisturbed(e)
  {
    PhaseCounts(c, events, call, phase);
    hide Members, CallOf, InPhase, Count, NamesCall;
    SoleElement(InPhase(Members(events, CallOf(c), call), phase));
  }

  lemma NamesakesAre(calls: Calls, call: Call)
    requires call in calls
    ensures |Namesakes(calls, call.callId)| == 1
            <==> forall other | other in calls && other.callId == call.callId :: other == call
  {
    var same := Namesakes(calls, call.callId);
    assert call in same;
    if |same| == 1 {
      assert |same - {call}| == 0;
      assert forall other | other in calls && other.callId == call.callId :: other in same;
      assert forall other | other in same :: other == call;
    }
    if forall other | other in calls && other.callId == call.callId :: other == call {
      assert same == {call} && |{call}| == 1;
    }
  }

  lemma RowsAre(c: Context, usage: seq<UsageRow>, nonExecution: set<nat>, call: Call, i: nat)
    ensures OwnedRows(c, usage, nonExecution, call) == {i}
            <==> forall j: nat :: RowOfCall(c, usage, nonExecution, call, j) <==> j == i
  {
    var rows := OwnedRows(c, usage, nonExecution, call);
    forall j: nat ensures j in rows <==> RowOfCall(c, usage, nonExecution, call, j) {
    }
    hide RowOfCall, OwnedRows;
    if forall j: nat :: RowOfCall(c, usage, nonExecution, call, j) <==> j == i {
      assert rows == {i};
    }
    if rows == {i} {
      forall j: nat ensures RowOfCall(c, usage, nonExecution, call, j) <==> j == i {
        assert j in rows <==> j == i;
      }
    }
  }

  lemma SettledTells(c: Context, events: seq<Event>, call: Call) returns (start: Event, response: Event, finish: Event)
    requires Settled(Members(events, CallOf(c), call))
    ensures Story(c, events, call, start, response, finish)
    ensures response.data.providerResponseIdDigest.Str? && Digest(response.data.providerResponseIdDigest.s)
    ensures response == InPhase(Members(events, CallOf(c), call), "response_observed")[0]
  {
    var rows := Members(events, CallOf(c), call);
    start, response, finish := InPhase(rows, "call_started")[0], InPhase(rows, "response_observed")[0],
    InPhase(rows, "call_finished")[0];
    SolePhase(c, events, call, "call_started", start);
    SolePhase(c, events, call, "response_observed", response);
    SolePhase(c, events, call, "call_finished", finish);
    hide SoleIn, Members, CallOf, InPhase, Digest, Undisturbed;
  }

  lemma StorySettles(c: Context, events: seq<Event>, call: Call, start: Event, response: Event, finish: Event)
    requires Story(c, events, call, start, response, finish)
    requires response.data.providerResponseIdDigest.Str? && Digest(response.data.providerResponseIdDigest.s)
    ensures Settled(Members(events, CallOf(c), call))
    ensures response == InPhase(Members(events, CallOf(c), call), "response_observed")[0]
  {
    SolePhase(c, events, call, "call_started", start);
    SolePhase(c, events, call, "response_observed", response);
    SolePhase(c, events, call, "call_finished", finish);
    hide SoleIn, Members, CallOf, InPhase, Digest, Undisturbed;
  }

  /** A call is bound to a row if and only if their own fields say so. */
  lemma BoundIs(c: Context, events: seq<Event>, usage: seq<UsageRow>, nonExecution: set<nat>, calls: Calls, call: Call,
      i: nat)
    requires Grouped(events, CallOf(c), calls) && call in calls
    ensures BoundTo(c, usage, nonExecution, calls, call, i)
            <==> BoundByFields(c, events, usage, nonExecution, calls.Keys, call, i)
  {
    hide SoleIn, Members, CallOf, InPhase, Digest, Undisturbed, Namesakes, RowOfCall, OwnedRows, NamesCall;
    hide Answers, Answered, Grouped, Story, Settled;
    CallRows(c, events, calls, call);
    NamesakesAre(calls, call);
    RowsAre(c, usage, nonExecution, call, i);
    if BoundTo(c, usage, nonExecution, calls, call, i) {
      var start, response, finish := SettledTells(c, events, call);
      AnswersIs(c, usage, response, i);
    }
    if BoundByFields(c, events, usage, nonExecution, calls.Keys, call, i) {
      var start, response, finish :|
        Story(c, events, call, start, response, finish) && Answered(c, usage, response, i);
      AnswerInRange(c, usage, response, i);
      AnswersIs(c, usage, response, i);
      StorySettles(c, events, call, start, response, finish);
    }
  }

  lemma CallRows(c: Context, events: seq<Event>, calls: Calls, call: Call)
    requires Grouped(events, CallOf(c), calls) && call in calls
    ensures calls[call] == Members(events, CallOf(c), call)
  {
    CallsAre(c, events, calls, call);
  }

  lemma AnswerInRange(c: Context, usage: seq<UsageRow>, response: Event, i: nat)
    requires Answered(c, usage, response, i)
    ensures i < |usage|
  {
  }

  lemma AnswersIs(c: Context, usage: seq<UsageRow>, response: Event, i: nat)
    requires i < |usage|
    ensures Answered(c, usage, response, i) <==>
              && Answers(c, usage[i], response)
              && response.data.providerResponseIdDigest.Str? && Digest(response.data.providerResponseIdDigest.s)
  {
    hide ExactIdentity, Digest;
    if Answers(c, usage[i], response) {
      assert usage[i].responseId == Some(usage[i].responseId.value);
    }
  }

  /** Without observed calls, the inventory is unproved exactly when an execution
      row has the role of a brain or a writer. */
  lemma MainRoleIs(usage: seq<UsageRow>, nonExecution: set<nat>)
    ensures MainRole(usage, nonExecution) <==>
              exists row, i: nat :: i < |usage| && i !in nonExecution && usage[i] == row
                                    && (row.role == Some("brain") || row.role == Some("writer"))
  {
  }
}
