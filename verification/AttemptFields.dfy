/** What a projected physical attempt says, read off its own journal rows
    (scripts/lib/accepted-task-approval-projection-participants.ts,
    projectApprovalProjectionPhysicalAttempts). */
module AttemptFields {
  import opened Groups
  import opened Identifiers
  import opened Json
  import opened PhysicalAttempts
  import Projection = ProjectionUsage

  /** The row is an owned observation of this call and attempt. */
  ghost predicate RowOf(k: Key, e: Event) {
    && e.actor == "model-transport-observation" && e.parentless && e.data.purpose == Str("writer")
    && e.data.modelCallId == Str(k.0) && e.modelCallId == Str(k.0) && e.data.physicalAttempt == Num(k.1 as real)
    && Identity(Str(k.0)) && 0 < k.1 <= MAX_SAFE_INTEGER
  }

  ghost function PhaseOf(k: Key, phase: string): Event -> bool {
    (e: Event) => RowOf(k, e) && e.data.phase == Str(phase)
  }

  ghost predicate Shows(e: Event, at: int) {
    e.data.clock == Str("host_epoch_ms") && e.data.at == Num(at as real) && 0 <= at <= MAX_SAFE_INTEGER
  }

  /** The attempt's one start, result and end, in this order around its dispatches,
      none with a failed journal, and what result and end must agree on. */
  ghost predicate Proves(events: seq<Event>, k: Key, start: Event, result: Event, end: Event,
      o: Projection.OriginalResponse) {
    && start in events && PhaseOf(k, "adapter_attempt_created")(start)
    && Count(events, PhaseOf(k, "adapter_attempt_created")) == 1
    && (forall d | d in events && PhaseOf(k, "dispatch_started")(d) ::
          start.journalIndex < d.journalIndex < result.journalIndex)
    && (forall e | e in events && RowOf(k, e) :: e.data.journalFailed == Bool(false))
    && result in events && PhaseOf(k, "model_result_completed")(result)
    && Count(events, PhaseOf(k, "model_result_completed")) == 1
    && end in events && PhaseOf(k, "adapter_attempt_finished")(end)
    && Count(events, PhaseOf(k, "adapter_attempt_finished")) == 1
    && result.data.hostResultReceiptId == Str(o.hostResultReceiptId)
    && result.data.providerResponseIdDigest == end.data.providerResponseIdDigest == Str(o.providerResponseIdDigest)
    && result.data.resultScope == end.data.resultScope == Str("original_sdk_response")
    && end.data.outcome == Str("returned") && result.journalIndex < end.journalIndex
    && (forall h :: o.responseOutputDigest == Some(h) <==> result.data.responseOutputDigest == Str(h) && Digest(h))
  }

  lemma KeyIsRow(e: Event, k: Key)
    ensures KeyOf()(e) == Some(k) <==> RowOf(k, e)
  {
    if RowOf(k, e) {
      assert (k.1 as real).Floor == k.1;
      assert e.data.physicalAttempt.PositiveSeq() == Some(k.1) && k == (k.0, k.1);
    }
  }

  lemma {:induction false} PhaseCounts(events: seq<Event>, k: Key, phase: string)
    ensures |InPhase(Members(events, KeyOf(), k), phase)| == Count(events, PhaseOf(k, phase))
  {
    if events != [] {
      var init, last := events[..|events| - 1], events[|events| - 1];
      PhaseCounts(init, k, phase);
      KeyIsRow(last, k);
      var members := Members(init, KeyOf(), k);
      assert (members + [last])[..|members|] == members && members + [] == members;
      hide KeyOf, RowOf;
    }
  }

  lemma RowsAre(events: seq<Event>, k: Key, e: Event)
    ensures e in Members(events, KeyOf(), k) <==> e in events && RowOf(k, e)
  {
    MembersAre(events, KeyOf(), k);
    KeyIsRow(e, k);
    hide KeyOf, RowOf;
  }

  lemma ClockShows(e: Event, at: int)
    ensures TimeOf(e) == Some(at) <==> Shows(e, at)
  {
  }

  lemma OutcomeIs(rows: seq<Event>)
    ensures var ends := InPhase(rows, "adapter_attempt_finished");
            && (OutcomeOf(rows) == Projection.Unfinished <==> |ends| != 1)
            && (OutcomeOf(rows) == Projection.Returned <==> PhysicalAttempts.Exact(rows))
            && (OutcomeOf(rows) == Projection.Failed <==>
                  |ends| == 1 && ends[0].data.outcome in {Str("failed"), Str("cancelled")})
    ensures OriginalOf(rows).Some? <==> PhysicalAttempts.Exact(rows)
  {
    hide Identity, Hash, DispatchIds, InPhase, AllDifferent;
  }

  /** The outcome of an attempt: none while it did not end exactly once, failed
      when its one end says so, and returned exactly when it has its response. */
  lemma AttemptOutcome(events: seq<Event>, a: Attempt, finishedAt: Option<int>)
    requires Describes(a, Members(events, KeyOf(), a.key), finishedAt)
    ensures a.outcome == Projection.Unfinished <==> Count(events, PhaseOf(a.key, "adapter_attempt_finished")) != 1
    ensures a.outcome == Projection.Failed <==>
              && Count(events, PhaseOf(a.key, "adapter_attempt_finished")) == 1
              && exists e :: e in events && PhaseOf(a.key, "adapter_attempt_finished")(e)
                             && e.data.outcome in {Str("failed"), Str("cancelled")}
    ensures a.outcome == Projection.Returned <==> a.original.Some?
    ensures a.dispatches == Count(events, PhaseOf(a.key, "dispatch_started"))
  {
    var rows := Members(events, KeyOf(), a.key);
    OutcomeIs(rows);
    SolePhase(events, a.key, "adapter_attempt_finished");
    PhaseCounts(events, a.key, "dispatch_started");
    hide Members, KeyOf, OutcomeOf, OriginalOf, PhysicalAttempts.Exact, RowOf, Count, Late, InPhase, PhaseOf;
  }

  /** A phase that occurs once in an attempt occurs in its one row. */
  lemma SolePhase(events: seq<Event>, k: Key, phase: string)
    ensures var r := InPhase(Members(events, KeyOf(), k), phase);
            && |r| == Count(events, PhaseOf(k, phase))
            && (|r| == 1 ==> forall e :: e == r[0] <==> e in events && PhaseOf(k, phase)(e))
  {
    PhaseCounts(events, k, phase);
    forall e {
      RowsAre(events, k, e);
    }
    hide Members, KeyOf, RowOf, Count;
    SoleElement(InPhase(Members(events, KeyOf(), k), phase));
  }

  lemma SoleElement(r: seq<Event>)
    ensures |r| == 1 ==> forall e :: e == r[0] <==> e in r
  {
    if |r| == 1 {
      assert r[0] in r;
    }
  }

  /** An attempt is late exactly when a readable clock shows a time after the job's
      end, and in time when all clocks are readable and none does. */
  lemma AttemptLate(events: seq<Event>, a: Attempt, finishedAt: Option<int>)
    requires Describes(a, Members(events, KeyOf(), a.key), finishedAt)
    ensures a.late == Some(true) <==>
              exists e, at, end :: e in events && RowOf(a.key, e) && Shows(e, at) && finishedAt == Some(end) && end < at
    ensures a.late == Some(false) <==>
              finishedAt.Some? && forall e | e in events && RowOf(a.key, e) ::
                                    exists at :: Shows(e, at) && at <= finishedAt.value
  {
    var rows := Members(events, KeyOf(), a.key);
    forall e {
      RowsAre(events, a.key, e);
    }
    forall e, at {
      ClockShows(e, at);
    }
    hide Members, KeyOf, OutcomeOf, OriginalOf, RowOf, InPhase, TimeOf, Shows;
    if a.late == Some(true) {
      var e :| e in rows && TimeOf(e).Some? && TimeOf(e).value > finishedAt.value;
      assert Shows(e, TimeOf(e).value);
    }
    if a.late == Some(false) {
      forall e | e in events && RowOf(a.key, e) ensures exists at :: Shows(e, at) && at <= finishedAt.value {
        assert e in rows && TimeOf(e).Some?;
        assert Shows(e, TimeOf(e).value);
      }
    }
  }

  /** The original response is that of the attempt's one result row, on which its
      one end agrees. */
  lemma AttemptResponse(events: seq<Event>, a: Attempt, finishedAt: Option<int>)
    returns (start: Event, result: Event, end: Event)
    requires Describes(a, Members(events, KeyOf(), a.key), finishedAt) && a.original.Some?
    ensures Proves(events, a.key, start, result, end, a.original.value)
  {
    hide Members, KeyOf, OutcomeOf, RowOf, InPhase, DispatchIds, AllDifferent, Count, Late, OriginalOf, Digest;
    var rows := Members(events, KeyOf(), a.key);
    OutcomeIs(rows);
    ResponseIs(rows, OriginalOf(rows).value);
    SolePhase(events, a.key, "model_result_completed");
    SolePhase(events, a.key, "adapter_attempt_finished");
    SolePhase(events, a.key, "adapter_attempt_created");
    start := InPhase(rows, "adapter_attempt_created")[0];
    result, end := InPhase(rows, "model_result_completed")[0], InPhase(rows, "adapter_attempt_finished")[0];
    forall d | d in events && RowOf(a.key, d) ensures d in rows {
      RowsAre(events, a.key, d);
    }
  }

  lemma ResponseIs(rows: seq<Event>, o: Projection.OriginalResponse)
    requires OriginalOf(rows) == Some(o)
    ensures var completed, ends := InPhase(rows, "model_result_completed"), InPhase(rows, "adapter_attempt_finished");
            && |completed| == 1 && |ends| == 1 && |InPhase(rows, "adapter_attempt_created")| == 1
            && (forall d | d in rows && d.data.phase == Str("dispatch_started") ::
                  InPhase(rows, "adapter_attempt_created")[0].journalIndex < d.journalIndex
                  < completed[0].journalIndex)
            && (forall e | e in rows :: e.data.journalFailed == Bool(false))
            && var result, end := completed[0], ends[0];
            && result.data.hostResultReceiptId == Str(o.hostResultReceiptId)
            && result.data.providerResponseIdDigest == end.data.providerResponseIdDigest
               == Str(o.providerResponseIdDigest)
            && result.data.resultScope == end.data.resultScope == Str("original_sdk_response")
            && end.data.outcome == Str("returned") && result.journalIndex < end.journalIndex
            && (forall h :: o.responseOutputDigest == Some(h)
                            <==> result.data.responseOutputDigest == Str(h) && Digest(h))
  {
    hide InPhase, DispatchIds, AllDifferent, HexRun;
  }
}
