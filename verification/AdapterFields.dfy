/** What the checks of one local adapter attempt compare, read off the journal
    fields (scripts/session-comparison.ts, measureLocalAdapterAttempts). */
module AdapterFields {
  import opened Groups
  import opened Identifiers
  import opened Json
  import opened LocalAdapters
  import opened Transport
  import opened TransportSpans
  import opened TransportFields

  /** Two events make one claim on a call exactly when source, attempt, owner and
      purpose are equal, and the job is equal or named by neither. */
  lemma NamespaceIs(a: Event, b: Event)
    ensures NamespaceOf(a) == NamespaceOf(b) <==>
              && a.data.sourceUserSeq == b.data.sourceUserSeq && a.data.runAttemptId == b.data.runAttemptId
              && a.data.ownerKind == b.data.ownerKind && a.data.purpose == b.data.purpose
              && Alike(a.data.usageJobId, b.data.usageJobId)
  {
  }

  /** Both the reported and the stored time of the event lie in the window of the
      task and in the bounds of its attempt. */
  ghost predicate InBounds(k: Clock, e: Event, at: int, stored: int) {
    && Clocked(e, at) && e.createdAt == Some(stored) && k.window.lineageProved
    && exists attempt, start: int, end: int, lo: int, hi: int ::
         && Limits(k, e, attempt, start, end, lo, hi)
         && start <= at <= end && start <= stored <= end && lo <= at <= hi && lo <= stored <= hi
  }

  ghost predicate Limits(k: Clock, e: Event, attempt: string, start: int, end: int, lo: int, hi: int) {
    && e.data.runAttemptId == Str(attempt) && ExactIdentity(attempt) && attempt in k.bounds
    && k.bounds[attempt] == (Some(lo), Some(hi)) && k.window.start == Some(start) && k.window.end == Some(end)
  }

  /** An event is bounded exactly when its own times are in bounds. */
  lemma BoundedIs(k: Clock, e: Event)
    ensures k.Bounded(e) <==> exists at, stored :: InBounds(k, e, at, stored)
  {
    if k.Bounded(e) {
      BoundedInBounds(k, e);
    }
    if at, stored :| InBounds(k, e, at, stored) {
      ClockReads(e, at);
      var attempt, start: int, end: int, lo: int, hi: int :|
        && Limits(k, e, attempt, start, end, lo, hi)
        && start <= at <= end && start <= stored <= end && lo <= at <= hi && lo <= stored <= hi;
    }
    hide InBounds;
  }

  lemma BoundedInBounds(k: Clock, e: Event)
    requires k.Bounded(e)
    ensures exists at, stored :: InBounds(k, e, at, stored)
  {
    var id := e.data.runAttemptId.s;
    var (lo, hi) := k.bounds[id];
    var at, stored := EventTime(e).value, e.createdAt.value;
    ClockReads(e, at);
    assert Limits(k, e, id, k.window.start.value, k.window.end.value, lo.value, hi.value);
    assert InBounds(k, e, at, stored);
  }

  /** Bounded events are compared by what their clocks show. */
  lemma ClocksCompare(k: Clock, a: Event, b: Event)
    requires k.Bounded(a) && k.Bounded(b)
    ensures k.At(a) <= k.At(b) <==> exists s, t :: Clocked(a, s) && Clocked(b, t) && s <= t
  {
    ClockReads(a, EventTime(a).value);
    ClockReads(b, EventTime(b).value);
    forall s, t | Clocked(a, s) && Clocked(b, t) ensures s == k.At(a) && t == k.At(b) {
      ClockReads(a, s);
      ClockReads(b, t);
    }
  }

  /** The event ends a dispatch of this identity, in the same call and attempt. */
  ghost function Ending(of: Event, d: Event): Event -> bool {
    (x: Event) => x.data.modelCallId == of.data.modelCallId && x.data.physicalAttempt == of.data.physicalAttempt
                  && x.data.dispatchId == d.data.dispatchId
                  && x.data.phase in {Str("headers_received"), Str("dispatch_failed")}
  }

  lemma {:induction false} FilterOfFilter(s: seq<Event>, p: Event -> bool, q: Event -> bool, both: Event -> bool)
    requires forall x | x in s :: both(x) <==> p(x) && q(x)
    ensures Filter(Filter(s, p), q) == Filter(s, both)
  {
    if s != [] {
      var init, last := s[..|s| - 1], s[|s| - 1];
      FilterOfFilter(init, p, q, both);
      var before := Filter(init, p);
      assert (before + [last])[..|before|] == before && before + [] == before;
    }
  }

  /** A dispatch ended exactly when one event of its call and attempt ends it, on the
      same wire, between the dispatch and the finish. */
  lemma EndsIs(k: Clock, events: seq<Event>, last: Event, d: Event)
    requires d.data.phase == Str("dispatch_started") && forall x | x in events && Ending(last, d)(x) :: k.Bounded(x)
    requires k.Bounded(d)
    ensures DispatchEnds(k, events, last, d) <==>
              && (d.data.transport == Str("raw_claude_messages") || d.data.transport == Str("typesafe_systemone"))
              && Count(events, Ending(last, d)) == 1
              && exists e, a, b :: e in events && Ending(last, d)(e) && d.seqNo < e.seqNo < last.seqNo
                                   && e.data.transport == d.data.transport
                                   && e.data.wireSubattempt == d.data.wireSubattempt
                                   && Clocked(d, a) && Clocked(e, b) && a <= b
  {
    SameEnds(events, last, d);
    SoleFiltered(events, Ending(last, d));
    forall e | e in events && Ending(last, d)(e) {
      ClocksCompare(k, d, e);
    }
    hide Filter, Traffic, EndsOf, Count, Clocked, Ending;
    hide Clock.Bounded, Clock.At;
  }

  lemma SameEnds(events: seq<Event>, last: Event, d: Event)
    ensures EndsOf(events, last, d) == Filter(events, Ending(last, d))
  {
    var traffic := (e: Event) => !AdapterPhase(e) && e.data.modelCallId == last.data.modelCallId
                                 && e.data.physicalAttempt == last.data.physicalAttempt;
    var ending := (e: Event) => e.data.dispatchId == d.data.dispatchId
                                && (Phase(e, "headers_received") || Phase(e, "dispatch_failed"));
    hide Filter;
    FilterOfFilter(events, traffic, ending, Ending(last, d));
  }

  ghost function Settles(id: string): Event -> bool {
    (e: Event) => (e.data.phase == Str("model_attempt_retired") || e.data.phase == Str("model_result_completed"))
                  && e.data.hostResultReceiptId == Str(id)
  }

  /** The tallies count the starts of a dispatch and the uses of a receipt. */
  lemma TalliesAre(events: seq<Event>, dispatched: map<string, nat>, receipts: map<string, nat>, id: string)
    requires Tallied(events, DispatchKey(), dispatched) && Tallied(events, SettledKey(), receipts) && ExactIdentity(id)
    ensures CountOf(dispatched, id) == Count(events, Starting(Str(id)))
    ensures CountOf(receipts, id) == Count(events, Settles(id))
  {
    MembersCount(events, DispatchKey(), id, Starting(Str(id)));
    MembersCount(events, SettledKey(), id, Settles(id));
    hide Count, Members, ExactIdentity;
    assert CountOf(dispatched, id) == |Members(events, DispatchKey(), id)|;
    assert CountOf(receipts, id) == |Members(events, SettledKey(), id)|;
  }

  /** A wire event fits its attempt exactly when it names the same attempt, claim and
      turn, was written by the system in time, and lies after the start and before
      the finish; only what settles the attempt may come later. */
  lemma WireIs(k: Clock, first: Event, last: Event, e: Event)
    requires k.Bounded(first) && k.Bounded(last)
    ensures WireFits(k, first, last, e) <==>
              var settles := e.data.phase in {Str("model_attempt_retired"), Str("model_result_completed")};
              && SameAttempt(e, last) && NamespaceOf(e) == NamespaceOf(first)
              && e.data.logicalTurnId == first.data.logicalTurnId && e.role == "system"
              && e.data.version == Num(1.0) && e.data.journalFailed == Bool(false) && e.data.late != Bool(true)
              && first.seqNo < e.seqNo && (settles || e.seqNo < last.seqNo) && k.Bounded(e)
              && exists a, b, t, end ::
                   Clocked(first, a) && Clocked(last, b) && Clocked(e, t) && k.window.end == Some(end)
                   && a <= t && (t <= b || (last.seqNo < e.seqNo && settles && t <= end))
  {
    if k.Bounded(e) {
      ClockReads(first, EventTime(first).value);
      ClockReads(last, EventTime(last).value);
      ClockReads(e, EventTime(e).value);
      forall s | Clocked(first, s) ensures s == k.At(first) {
        ClockReads(first, s);
      }
      forall s | Clocked(last, s) ensures s == k.At(last) {
        ClockReads(last, s);
      }
      forall s | Clocked(e, s) ensures s == k.At(e) {
        ClockReads(e, s);
      }
      assert k.window.end == Some(k.window.end.value);
    }
    hide Clocked, EventTime, NamespaceOf, Clock.Inside;
  }

  /** An incomplete attempt is reported under its one start, or, without a start,
      under its one finish. */
  lemma FirstSeqIs(group: seq<Event>, e: Event)
    requires Starts(group) == [e] || (Starts(group) == [] && Finishes(group) == [e])
    ensures FirstSeq(group) == e.seqNo && e in group
  {
    assert e in Starts(group) || e in Finishes(group);
  }
}
