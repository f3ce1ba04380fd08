/** What the transport observations own, prove and join, read off the journal
    fields and the usage rows (scripts/session-comparison.ts,
    measureTransportObservations). */
module TransportFields {
  import opened Groups
  import opened Identifiers
  import opened Json
  import opened Transport
  import opened TransportSpans
  import opened Usage

  // ---------------------------------------------------------------- ownership

  /** The event is a wire or result event of an accepted source, observed in one
      of the attempts of its lineage, after the source. */
  ghost predicate OwnedByFields(c: Context, e: Event) {
    && e.data.phase !in {Str("adapter_attempt_created"), Str("adapter_attempt_finished")}
    && e.role == "system" && e.data.version == Num(1.0)
    && (exists n: nat, id ::
          && Numbers(e.data.sourceUserSeq, n) && n in c.sources && n < e.seqNo
          && e.data.logicalTurnId == Str("turn:" + Decimal(n))
          && e.data.runAttemptId == Str(id) && ExactIdentity(id) && id in c.sourceByAttempt
          && c.isAncestor(n, c.sourceByAttempt[id]))
    && (exists call :: e.data.modelCallId == Str(call) && ExactIdentity(call))
    && exists k: nat :: Numbers(e.data.physicalAttempt, k)
  }

  lemma OwnedIs(c: Context, e: Event)
    ensures OwnedBy(c)(e) <==> OwnedByFields(c, e)
  {
    PositiveIs(e.data.sourceUserSeq);
    PositiveIs(e.data.physicalAttempt);
    hide ExactIdentity, Value.PositiveSeq, Numbers, Decimal;
    if OwnedBy(c)(e) {
      assert Numbers(e.data.sourceUserSeq, e.data.sourceUserSeq.PositiveSeq().value);
      assert Numbers(e.data.physicalAttempt, e.data.physicalAttempt.PositiveSeq().value);
      assert e.data.modelCallId == Str(e.data.modelCallId.s) && e.data.runAttemptId == Str(e.data.runAttemptId.s);
    }
  }

  /** An event is late exactly when its own clock shows a time after the delivery. */
  lemma LateIs(w: Window, e: Event)
    ensures AfterDelivery(w)(e) <==> exists end, at :: w.end == Some(end) && Clocked(e, at) && end < at
  {
    if AfterDelivery(w)(e) {
      ClockReads(e, EventTime(e).value);
      assert w.end == Some(w.end.value);
    }
    if end, at :| w.end == Some(end) && Clocked(e, at) && end < at {
      ClockReads(e, at);
    }
  }

  // ---------------------------------------------------------------- proved results

  ghost function ResultsLike(e: Event): Event -> bool {
    (x: Event) => SameAttempt(x, e) && x.data.phase == Str("model_result_completed")
  }

  ghost function Starting(id: Value): Event -> bool {
    (x: Event) => x.data.phase == Str("dispatch_started") && x.data.dispatchId == id
  }

  ghost function Receiving(id: Value): Event -> bool {
    (x: Event) => x.data.hostResultReceiptId == id
  }

  /** Dispatch `d` is the `i`-th of the result: it has this identity, which no other
      event starts, its place in the order, and one end on its own wire, and all
      that precedes the result. */
  ghost predicate ListedDispatch(owned: seq<Event>, e: Event, i: nat, id: Value, d: Event) {
    && Exact(id) && d.data.dispatchId == id && Count(owned, Starting(id)) == 1
    && d.data.wireSubattempt == Num((i + 1) as real) && Count(owned, EndsLike(d)) == 1
    && exists end :: end in owned && EndsLike(d)(end) && d.seqNo < end.seqNo < e.seqNo
                     && end.data.transport == d.data.transport && end.data.wireSubattempt == d.data.wireSubattempt
  }

  ghost predicate Listing(owned: seq<Event>, e: Event, ids: seq<Value>, dispatches: seq<Event>) {
    && (forall i, j | 0 <= i < j < |ids| :: ids[i] != ids[j]) && |dispatches| == |ids|
    && forall i | 0 <= i < |ids| :: ListedDispatch(owned, e, i, ids[i], dispatches[i])
  }

  /** The only completed result of its attempt: it lists exactly the dispatches of
      the attempt, and no other event has its receipt. */
  ghost predicate ResultProved(owned: seq<Event>, e: Event) {
    && e.data.phase == Str("model_result_completed") && Count(owned, ResultsLike(e)) == 1
    && (exists ids ::
          e.data.dispatchIds == Some(ids) && ids != [] && Listing(owned, e, ids, Filter(owned, DispatchedLike(e))))
    && Exact(e.data.hostResultReceiptId) && Count(owned, Receiving(e.data.hostResultReceiptId)) == 1
    && e.data.journalFailed != Bool(true)
  }

  lemma {:induction false} MembersCount<K>(s: seq<Event>, keyOf: Event -> Option<K>, k: K, p: Event -> bool)
    requires forall e | e in s :: p(e) <==> keyOf(e) == Some(k)
    ensures |Members(s, keyOf, k)| == Count(s, p)
  {
    if s != [] {
      MembersCount(s[..|s| - 1], keyOf, k, p);
    }
  }

  lemma WireTally(t: Tallies, owned: seq<Event>, id: Value)
    requires TalliedFor(owned, t) && Exact(id)
    ensures CountOf(t.wires, TextOf(id)) == Count(owned, Starting(id))
  {
    MembersCount(owned, WireKey(), id.s, Starting(id));
    hide ExactIdentity, Count;
    assert CountOf(t.wires, id.s) == |Members(owned, WireKey(), id.s)|;
  }

  lemma ReceiptTally(t: Tallies, owned: seq<Event>, id: Value)
    requires TalliedFor(owned, t) && Exact(id)
    ensures CountOf(t.receipts, TextOf(id)) == Count(owned, Receiving(id))
  {
    MembersCount(owned, ReceiptKey(), id.s, Receiving(id));
    hide ExactIdentity, Count;
    assert CountOf(t.receipts, id.s) == |Members(owned, ReceiptKey(), id.s)|;
  }

  lemma LikeMembers(c: Context, owned: seq<Event>, e: Event)
    requires (forall x | x in owned :: OwnedBy(c)(x)) && e in owned
    ensures Filter(AttemptOf(owned, e), InPhase("model_result_completed")) == Filter(owned, ResultsLike(e))
    ensures Filter(AttemptOf(owned, e), InPhase("dispatch_started")) == Filter(owned, DispatchedLike(e))
    ensures |Filter(owned, ResultsLike(e))| == Count(owned, ResultsLike(e))
  {
    forall x | x in owned {
      OneAttempt(c, x, e);
    }
    hide KeyFor, OwnedBy, Filter, Members;
    FilterOfMembers(owned, KeyFor(e), InPhase("model_result_completed"), ResultsLike(e));
    FilterOfMembers(owned, KeyFor(e), InPhase("dispatch_started"), DispatchedLike(e));
    FilterCounts(owned, ResultsLike(e));
  }

  lemma DispatchListed(c: Context, t: Tallies, owned: seq<Event>, e: Event, i: nat, id: Value, d: Event)
    requires TalliedFor(owned, t) && (forall x | x in owned :: OwnedBy(c)(x)) && e in owned && d in owned
    requires SameAttempt(d, e)
    ensures ListedDispatch(owned, e, i, id, d) <==>
              var group := AttemptOf(owned, e);
              && Exact(id) && CountOf(t.wires, TextOf(id)) == 1 && d.data.dispatchId == id
              && d.data.wireSubattempt == Num((i + 1) as real) && d.seqNo < e.seqNo
              && Settled(group, d) && Ends(group, id)[0].seqNo < e.seqNo
  {
    if Exact(id) {
      WireTally(t, owned, id);
    }
    OneAttempt(c, d, e);
    assert AttemptOf(owned, d) == AttemptOf(owned, e);
    SameEnds(c, owned, d);
    SoleFiltered(owned, EndsLike(d));
    hide Filter, AttemptOf, OwnedBy, Count, SameAttempt, TalliedFor, Exact, KeyFor, Starting;
  }

  lemma DispatchesAreLike(owned: seq<Event>, e: Event)
    ensures forall d | d in Filter(owned, DispatchedLike(e)) :: d in owned && SameAttempt(d, e)
  {
  }

  /** A result is proved by its fields alone, in the one journal. */
  lemma ProvedIs(c: Context, t: Tallies, owned: seq<Event>, e: Event)
    requires TalliedFor(owned, t) && (forall x | x in owned :: OwnedBy(c)(x)) && e in owned
    ensures ProvedResult(t, AttemptOf(owned, e), e) <==> ResultProved(owned, e)
  {
    LikeMembers(c, owned, e);
    DispatchesAreLike(owned, e);
    if Exact(e.data.hostResultReceiptId) {
      ReceiptTally(t, owned, e.data.hostResultReceiptId);
    }
    var ids, dispatches := e.data.dispatchIds.GetOr([]), Filter(owned, DispatchedLike(e));
    ListsIs(c, t, owned, e, ids, dispatches);
    assert ids != [] ==> e.data.dispatchIds == Some(ids);
    hide Filter, AttemptOf, OwnedBy, Count, SameAttempt, TalliedFor, Exact, KeyFor, Listing, ListsDispatches, Receiving;
  }

  lemma ListsIs(c: Context, t: Tallies, owned: seq<Event>, e: Event, ids: seq<Value>, dispatches: seq<Event>)
    requires TalliedFor(owned, t) && (forall x | x in owned :: OwnedBy(c)(x)) && e in owned
    requires ids == e.data.dispatchIds.GetOr([])
    requires dispatches == Filter(AttemptOf(owned, e), InPhase("dispatch_started"))
    requires forall d | d in dispatches :: d in owned && SameAttempt(d, e)
    ensures ListsDispatches(t, AttemptOf(owned, e), e) <==> ids != [] && Listing(owned, e, ids, dispatches)
  {
    var group := AttemptOf(owned, e);
    if |ids| == |dispatches| {
      forall i | 0 <= i < |ids|
        ensures ListedDispatch(owned, e, i, ids[i], dispatches[i]) <==>
                  && Exact(ids[i]) && CountOf(t.wires, TextOf(ids[i])) == 1 && dispatches[i].data.dispatchId == ids[i]
                  && dispatches[i].data.wireSubattempt == Num((i + 1) as real) && dispatches[i].seqNo < e.seqNo
                  && Settled(group, dispatches[i]) && Ends(group, ids[i])[0].seqNo < e.seqNo {
        assert dispatches[i] in dispatches;
        DispatchListed(c, t, owned, e, i, ids[i], dispatches[i]);
      }
    }
    hide Filter, AttemptOf, OwnedBy, Count, SameAttempt, TalliedFor, Exact, KeyFor, ListedDispatch, Settled, Ends;
    hide Members;
  }

  // ---------------------------------------------------------------- joins

  /** The row's trace names the source, turn, attempt and call of the result. */
  ghost predicate RowOfResult(c: Context, row: UsageRow, e: Event) {
    exists n: nat, turn, attempt, call ::
      && Numbers(e.data.sourceUserSeq, n) && e.data.logicalTurnId == Str(turn) && e.data.runAttemptId == Str(attempt)
      && e.data.modelCallId == Str(call) && row.trace.Some?
      && row.trace.value.acceptedSource == Some(SourceKey(c.sessionId, n))
      && row.trace.value.logicalTurnId == Some(turn) && row.trace.value.attemptId == Some(attempt)
      && row.trace.value.modelCallId == Some(call)
  }

  ghost function AnsweringDigest(digest: Value): Event -> bool {
    (x: Event) => x.data.phase == Str("model_result_completed") && x.data.providerResponseIdDigest == digest
  }

  ghost function AnsweringCall(call: Value): Event -> bool {
    (x: Event) => x.data.phase == Str("model_result_completed") && x.data.modelCallId == call
  }

  /** The one row of the result is a certified success, and belongs to it by a
      response digest, or a call, that no other completed result has. */
  ghost predicate RowCertifies(c: Context, usage: seq<UsageRow>, owned: seq<Event>, e: Event, i: nat) {
    && i < |usage| && (forall j | 0 <= j < |usage| :: RowOfResult(c, usage[j], e) <==> j == i)
    && usage[i].ok != Some(false) && c.accounting(usage[i]).certified && !c.accounting(usage[i]).invalid
    && (|| (e.data.resultScope == Str("original_sdk_response")
            && Count(owned, AnsweringDigest(e.data.providerResponseIdDigest)) == 1
            && exists id :: usage[i].responseId == Some(id) && ExactIdentity(id)
                            && e.data.providerResponseIdDigest == Str(c.sha256(id)))
        || (e.data.resultScope == Str("owned_systemone_parser") && e.data.usage == Str("reported")
            && e.data.remoteSettlement == Str("parsed_response")
            && Count(owned, AnsweringCall(e.data.modelCallId)) == 1))
  }

  lemma {:induction false} CountOfFilter(s: seq<Event>, p: Event -> bool, q: Event -> bool, both: Event -> bool)
    requires forall e | e in s :: both(e) <==> p(e) && q(e)
    ensures Count(Filter(s, p), q) == Count(s, both)
  {
    if s != [] {
      var init, last := s[..|s| - 1], s[|s| - 1];
      CountOfFilter(init, p, q, both);
      var before := Filter(init, p);
      assert (before + [last])[..|before|] == before && before + [] == before;
    }
  }

  lemma DigestTally(t: Tallies, owned: seq<Event>, digest: string)
    requires TalliedFor(owned, t)
    ensures CountOf(t.digests, digest) == Count(owned, AnsweringDigest(Str(digest)))
  {
    var results := Filter(owned, InPhase("model_result_completed"));
    var named := (x: Event) => x.data.providerResponseIdDigest == Str(digest);
    MembersCount(results, DigestKey(), digest, named);
    CountOfFilter(owned, InPhase("model_result_completed"), named, AnsweringDigest(Str(digest)));
    hide Count, Filter, Members;
    assert CountOf(t.digests, digest) == |Members(results, DigestKey(), digest)|;
  }

  lemma CallTally(c: Context, t: Tallies, owned: seq<Event>, call: string)
    requires TalliedFor(owned, t) && forall x | x in owned :: OwnedBy(c)(x)
    ensures CountOf(t.calls, call) == Count(owned, AnsweringCall(Str(call)))
  {
    var results := Filter(owned, InPhase("model_result_completed"));
    var named := (x: Event) => x.data.modelCallId == Str(call);
    forall x | x in results ensures named(x) <==> CallKey()(x) == Some(call) {
      assert x in owned && OwnedBy(c)(x);
    }
    MembersCount(results, CallKey(), call, named);
    CountOfFilter(owned, InPhase("model_result_completed"), named, AnsweringCall(Str(call)));
    hide Count, Filter, Members;
    assert CountOf(t.calls, call) == |Members(results, CallKey(), call)|;
  }

  lemma TracesIs(c: Context, row: UsageRow, e: Event)
    requires OwnedBy(c)(e)
    ensures Traces(c, row, e) <==> RowOfResult(c, row, e)
  {
    PositiveIs(e.data.sourceUserSeq);
    hide ExactIdentity, Value.PositiveSeq, Numbers, Decimal, SourceKey;
    if Traces(c, row, e) {
      assert Numbers(e.data.sourceUserSeq, e.data.sourceUserSeq.PositiveSeq().value);
      assert e.data.logicalTurnId == Str(e.data.logicalTurnId.s) && e.data.runAttemptId == Str(e.data.runAttemptId.s)
          && e.data.modelCallId == Str(e.data.modelCallId.s);
    }
  }

  lemma RowsAre(c: Context, usage: seq<UsageRow>, e: Event, i: nat)
    requires OwnedBy(c)(e)
    ensures RowsOf(c, usage, e) == {i} && i < |usage|
            <==> i < |usage| && forall j | 0 <= j < |usage| :: RowOfResult(c, usage[j], e) <==> j == i
  {
    hide Traces, RowOfResult, OwnedBy;
    var rows := RowsOf(c, usage, e);
    forall j: nat ensures j in rows <==> j < |usage| && RowOfResult(c, usage[j], e) {
      if j < |usage| {
        TracesIs(c, usage[j], e);
      }
    }
    SoleElement(rows, i);
    hide RowsOf;
    if i < |usage| && forall j | 0 <= j < |usage| :: RowOfResult(c, usage[j], e) <==> j == i {
      assert forall j: nat :: j in rows <==> j == i;
    }
    if rows == {i} {
      forall j | 0 <= j < |usage| ensures RowOfResult(c, usage[j], e) <==> j == i {
        assert j in rows <==> j == i;
      }
    }
  }

  lemma SoleElement(s: set<nat>, i: nat)
    ensures s == {i} <==> forall j: nat :: j in s <==> j == i
  {
    if forall j: nat :: j in s <==> j == i {
      assert s == {i};
    }
  }

  lemma BoundIs(c: Context, t: Tallies, owned: seq<Event>, row: UsageRow, e: Event)
    requires TalliedFor(owned, t) && (forall x | x in owned :: OwnedBy(c)(x)) && OwnedBy(c)(e)
    ensures SdkBound(c, t.digests, row, e) <==>
              && e.data.resultScope == Str("original_sdk_response")
              && Count(owned, AnsweringDigest(e.data.providerResponseIdDigest)) == 1
              && exists id :: row.responseId == Some(id) && ExactIdentity(id)
                              && e.data.providerResponseIdDigest == Str(c.sha256(id))
    ensures ParsedBound(t.calls, e) <==>
              && e.data.resultScope == Str("owned_systemone_parser") && e.data.usage == Str("reported")
              && e.data.remoteSettlement == Str("parsed_response")
              && Count(owned, AnsweringCall(e.data.modelCallId)) == 1
  {
    CallTally(c, t, owned, TextOf(e.data.modelCallId));
    if e.data.providerResponseIdDigest.Str? {
      DigestTally(t, owned, e.data.providerResponseIdDigest.s);
    }
    assert e.data.modelCallId.Str?;
    hide TalliedFor, Count, AnsweringCall, AnsweringDigest, OwnedBy, ExactIdentity;
    if SdkBound(c, t.digests, row, e) {
      assert row.responseId == Some(row.responseId.value);
    }
  }

  /** A result is joined with a row if and only if it is proved and the row
      certifies it, all by their own fields. */
  lemma JoinIs(c: Context, t: Tallies, usage: seq<UsageRow>, owned: seq<Event>, e: Event, i: nat)
    requires TalliedFor(owned, t) && (forall x | x in owned :: OwnedBy(c)(x)) && e in owned
    ensures Joined(c, t, usage, AttemptOf(owned, e), e, i)
            <==> ResultProved(owned, e) && RowCertifies(c, usage, owned, e, i)
  {
    hide ResultProved, ProvedResult, OwnedBy, RowsOf, RowOfResult, TalliedFor, Count, AnsweringCall, AnsweringDigest;
    hide AttemptOf, SdkBound, ParsedBound, ExactIdentity;
    ProvedIs(c, t, owned, e);
    RowsAre(c, usage, e, i);
    OwnMember(owned, e);
    if i < |usage| {
      BoundIs(c, t, owned, usage[i], e);
    }
  }

  lemma OwnMember(owned: seq<Event>, e: Event)
    requires e in owned
    ensures e in AttemptOf(owned, e)
  {
    MembersAre(owned, KeyOf(), KeyFor(e));
    hide KeyFor;
  }
}
