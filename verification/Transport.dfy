/** Transport observations of the model calls of one task: which completed
    results a usage row certifies, and how much of the task's window they span
    (scripts/session-comparison.ts, measureTransportObservations and
    measureLocalAdapterAttempts). */
module Transport {
  import opened Groups
  import opened Identifiers
  import opened Intervals
  import opened Json
  import opened Usage

  datatype Data = Data(
    version: Value, phase: Value, sourceUserSeq: Value, runAttemptId: Value, logicalTurnId: Value, modelCallId: Value,
    physicalAttempt: Value, ownerKind: Value, usageJobId: Value, purpose: Value, clock: Value, at: Value,
    dispatchId: Value, dispatchIds: Option<seq<Value>>, transport: Value, wireSubattempt: Value, journalFailed: Value,
    hostResultReceiptId: Value, providerResponseIdDigest: Value, providerReportedModel: Value, resultScope: Value,
    usage: Value, outcome: Value, remoteSettlement: Value, late: Value)

  /** A `model_transport_observed` event; `createdAt` is its parsed timestamp. */
  datatype Event = Event(seqNo: nat, role: string, createdAt: Option<int>, data: Data)

  predicate Phase(e: Event, phase: string) {
    e.data.phase == Str(phase)
  }

  predicate AdapterPhase(e: Event) {
    Phase(e, "adapter_attempt_created") || Phase(e, "adapter_attempt_finished")
  }

  // ---------------------------------------------------------------- ownership and keys

  function OwnerOf(c: Context, e: Event): Option<nat> {
    var attempt := e.data.runAttemptId;
    if Exact(attempt) && attempt.s in c.sourceByAttempt then Some(c.sourceByAttempt[attempt.s]) else None
  }

  predicate InScope(c: Context, e: Event) {
    var source := e.data.sourceUserSeq.PositiveSeq();
    (source.Some? && source.value in c.sources) || OwnerOf(c, e).Some?
  }

  predicate Proved(c: Context, e: Event) {
    var source, owner := e.data.sourceUserSeq.PositiveSeq(), OwnerOf(c, e);
    && e.role == "system" && e.data.version == Num(1.0)
    && source.Some? && source.value in c.sources && owner.Some? && c.isAncestor(source.value, owner.value)
    && e.data.logicalTurnId == Str("turn:" + Decimal(source.value))
    && Exact(e.data.modelCallId) && e.data.physicalAttempt.PositiveSeq().Some?
    && e.seqNo > source.value
  }

  /** One physical attempt of a model call. */
  type Key = (nat, string, string, nat)

  function KeyFor(e: Event): Key {
    (e.data.sourceUserSeq.PositiveSeq().GetOr(0), TextOf(e.data.runAttemptId), TextOf(e.data.modelCallId),
     e.data.physicalAttempt.PositiveSeq().GetOr(0))
  }

  function KeyOf(): Event -> Option<Key> {
    (e: Event) => Some(KeyFor(e))
  }

  function Filter<T(!new)>(s: seq<T>, p: T -> bool): (r: seq<T>)
    ensures forall x :: x in r <==> x in s && p(x)
  {
    if s == [] then [] else Filter(s[..|s| - 1], p) + if p(s[|s| - 1]) then [s[|s| - 1]] else []
  }

  // ---------------------------------------------------------------- usage joins

  /** The counters that tell whether an identity belongs to one result only. */
  function DigestKey(): Event -> Option<string> {
    (e: Event) => if e.data.providerResponseIdDigest.Str? then Some(e.data.providerResponseIdDigest.s) else None
  }

  function CallKey(): Event -> Option<string> {
    (e: Event) => Some(TextOf(e.data.modelCallId))
  }

  /** The usage row's trace names the same source, turn, attempt and call. */
  predicate Traces(c: Context, row: UsageRow, e: Event) {
    && row.AcceptedSource() == Some(SourceKey(c.sessionId, e.data.sourceUserSeq.PositiveSeq().GetOr(0)))
    && row.LogicalTurn() == Some(TextOf(e.data.logicalTurnId)) && row.Attempt() == Some(TextOf(e.data.runAttemptId))
    && row.Call() == Some(TextOf(e.data.modelCallId))
  }

  function RowsOf(c: Context, usage: seq<UsageRow>, e: Event): set<nat> {
    set i: nat | i < |usage| && Traces(c, usage[i], e)
  }

  /** The row belongs to this one result: by a response digest that no other
      result has, or because its call has no other result. */
  predicate SdkBound(c: Context, digests: map<string, nat>, row: UsageRow, e: Event) {
    && e.data.resultScope == Str("original_sdk_response")
    && row.responseId.Some? && ExactIdentity(row.responseId.value)
    && e.data.providerResponseIdDigest == Str(c.sha256(row.responseId.value))
    && CountOf(digests, c.sha256(row.responseId.value)) == 1
  }

  predicate ParsedBound(calls: map<string, nat>, e: Event) {
    && e.data.resultScope == Str("owned_systemone_parser") && e.data.usage == Str("reported")
    && e.data.remoteSettlement == Str("parsed_response")
    && CountOf(calls, TextOf(e.data.modelCallId)) == 1
  }

  predicate RowCertified(c: Context, row: UsageRow) {
    row.ok != Some(false) && Certified(c, row)
  }

  /** The one usage row that certifies the result, if there is one. */
  ghost predicate Certifies(c: Context, digests: map<string, nat>, calls: map<string, nat>, usage: seq<UsageRow>,
      e: Event, i: nat) {
    && RowsOf(c, usage, e) == {i} && i < |usage|
    && RowCertified(c, usage[i]) && (SdkBound(c, digests, usage[i], e) || ParsedBound(calls, e))
  }

  /** No row certifies two results, even when one call has several physical
      attempts or mixes original and parsed results. */
  lemma OneResultPerRow(c: Context, results: seq<Event>, digests: map<string, nat>, calls: map<string, nat>,
      usage: seq<UsageRow>, a: Event, b: Event, i: nat)
    requires Tallied(results, DigestKey(), digests) && Tallied(results, CallKey(), calls)
    requires a in results && b in results
    requires Certifies(c, digests, calls, usage, a, i) && Certifies(c, digests, calls, usage, b, i)
    ensures a == b
  {
    assert i in RowsOf(c, usage, a) && i in RowsOf(c, usage, b);
    var call := TextOf(a.data.modelCallId);
    assert CountOf(calls, call) == |Members(results, CallKey(), call)|;
    if ParsedBound(calls, a) || ParsedBound(calls, b) {
      CountedOnce(results, CallKey(), call, a, b);
    } else {
      var digest := a.data.providerResponseIdDigest.s;
      assert CountOf(digests, digest) == |Members(results, DigestKey(), digest)|;
      CountedOnce(results, DigestKey(), digest, a, b);
    }
  }

  ghost predicate Injective(joins: map<Event, nat>, usage: seq<UsageRow>) {
    && (forall e | e in joins :: joins[e] < |usage|)
    && (forall a, b | a in joins && b in joins && joins[a] == joins[b] :: a == b)
  }

  lemma {:induction false} NoMoreJoinsThanRows(joins: map<Event, nat>, usage: seq<UsageRow>)
    requires Injective(joins, usage)
    ensures |joins| <= |usage|
    decreases |usage|
  {
    if e :| e in joins && joins[e] == |usage| - 1 {
      var rest := joins - {e};
      assert joins.Keys == rest.Keys + {e};
      NoMoreJoinsThanRows(rest, usage[..|usage| - 1]);
    } else if |usage| > 0 {
      NoMoreJoinsThanRows(joins, usage[..|usage| - 1]);
    } else {
      assert joins.Keys == {};
    }
  }

  // ---------------------------------------------------------------- time window

  datatype Window = Window(start: Option<int>, end: Option<int>, lineageProved: bool)
  {
    predicate Proved() {
      lineageProved && start.Some? && end.Some? && end.value >= start.value
    }
  }

  function EventTime(e: Event): Option<int> {
    if e.data.clock == Str("host_epoch_ms") && e.data.at.Count() then Some(e.data.at.x.Floor) else None
  }

  /** The interval between two events, when the window bounds it. */
  function IntervalOf(w: Window, first: Event, last: Event): Option<Interval> {
    var a, b := EventTime(first), EventTime(last);
    if w.Proved() && a.Some? && b.Some? && w.start.value <= a.value <= b.value <= w.end.value
    then Some(Interval(a.value, b.value)) else None
  }

  ghost predicate InWindow(w: Window, intervals: seq<Interval>) {
    forall x | x in intervals :: w.Proved() && w.start.value <= x.start <= x.finish <= w.end.value
  }

  method UnionMs(w: Window, intervals: seq<Interval>) returns (ms: Option<int>)
    requires InWindow(w, intervals)
    ensures ms.Some? <==> intervals != []
    ensures ms.Some? ==> w.Proved() && 0 <= ms.value == |Covered(intervals)| <= w.end.value - w.start.value
  {
    ms := None;
    if intervals != [] {
      assert intervals[0] in intervals;
      var total := IntervalUnionMs(intervals);
      UnionWithinWindow(intervals, w.start.value, w.end.value);
      ms := Some(total);
    }
  }

  // ---------------------------------------------------------------- one physical attempt

  predicate ValidDispatch(e: Event) {
    && Phase(e, "dispatch_started") && Exact(e.data.dispatchId)
    && e.data.transport in {Str("raw_claude_messages"), Str("typesafe_systemone")}
    && e.data.wireSubattempt.PositiveSeq().Some?
  }

  function InPhase(phase: string): Event -> bool {
    (e: Event) => Phase(e, phase)
  }

  function Ends(group: seq<Event>, id: Value): seq<Event> {
    Filter(group, (e: Event) => e.data.dispatchId == id
        && (Phase(e, "headers_received") || Phase(e, "dispatch_failed")))
  }

  /** The dispatch ended once, afterwards, on the same wire. */
  predicate Settled(group: seq<Event>, d: Event) {
    var ends := Ends(group, d.data.dispatchId);
    && |ends| == 1 && ends[0].seqNo > d.seqNo
    && ends[0].data.transport == d.data.transport && ends[0].data.wireSubattempt == d.data.wireSubattempt
  }

  predicate SettledAs(group: seq<Event>, phase: string, d: Event) {
    ValidDispatch(d) && Settled(group, d) && Phase(Ends(group, d.data.dispatchId)[0], phase)
  }

  /** Occurrence counts over all owned events. */
  datatype Tallies = Tallies(wires: map<string, nat>, receipts: map<string, nat>, digests: map<string, nat>,
      calls: map<string, nat>)

  function WireKey(): Event -> Option<string> {
    (e: Event) => if Phase(e, "dispatch_started")
        && Exact(e.data.dispatchId) then Some(TextOf(e.data.dispatchId)) else None
  }

  function ReceiptKey(): Event -> Option<string> {
    (e: Event) => if Exact(e.data.hostResultReceiptId) then Some(TextOf(e.data.hostResultReceiptId)) else None
  }

  /** The result lists the dispatches of its attempt, in order, each settled
      before the result and each named nowhere else. */
  predicate ListsDispatches(t: Tallies, group: seq<Event>, response: Event) {
    var ids, dispatches := response.data.dispatchIds.GetOr([]), Filter(group, InPhase("dispatch_started"));
    && 0 < |ids| == |dispatches|
    && (forall i | 0 <= i < |ids| :: Exact(ids[i]))
    && (forall i, j | 0 <= i < j < |ids| :: ids[i] != ids[j])
    && forall i | 0 <= i < |ids| ::
         && CountOf(t.wires, TextOf(ids[i])) == 1 && dispatches[i].data.dispatchId == ids[i]
         && dispatches[i].data.wireSubattempt == Num((i + 1) as real) && dispatches[i].seqNo < response.seqNo
         && Settled(group, dispatches[i]) && Ends(group, ids[i])[0].seqNo < response.seqNo
  }

  /** The attempt's one completed result, with a receipt of its own. */
  predicate ProvedResult(t: Tallies, group: seq<Event>, response: Event) {
    && Phase(response, "model_result_completed") && |Filter(group, InPhase("model_result_completed"))| == 1
    && ListsDispatches(t, group, response)
    && Exact(response.data.hostResultReceiptId) && CountOf(t.receipts, TextOf(response.data.hostResultReceiptId)) == 1
    && response.data.journalFailed != Bool(true)
  }

  datatype Counts = Counts(starts: nat, headers: nat, failures: nat, retired: nat, results: nat)

  ghost function Dispatched(): Event -> bool {
    (e: Event) => ValidDispatch(e)
  }

  ghost function SettledIn(group: seq<Event>, phase: string): Event -> bool {
    (e: Event) => SettledAs(group, phase, e)
  }

  /** How often each outcome occurs among some events of one attempt. */
  ghost predicate CountsOf(counts: Counts, events: seq<Event>, group: seq<Event>) {
    && counts.starts == Count(events, Dispatched())
    && counts.headers == Count(events, SettledIn(group, "headers_received"))
    && counts.failures == Count(events, SettledIn(group, "dispatch_failed"))
    && counts.retired == Count(events, InPhase("model_attempt_retired"))
    && counts.results == Count(events, InPhase("model_result_completed"))
  }

  function CountEvent(counts: Counts, group: seq<Event>, e: Event): Counts {
    Counts(counts.starts + (if ValidDispatch(e) then 1 else 0),
           counts.headers + (if SettledAs(group, "headers_received", e) then 1 else 0),
           counts.failures + (if SettledAs(group, "dispatch_failed", e) then 1 else 0),
           counts.retired + (if Phase(e, "model_attempt_retired") then 1 else 0),
           counts.results + (if Phase(e, "model_result_completed") then 1 else 0))
  }

  lemma CountEventStep(counts: Counts, events: seq<Event>, group: seq<Event>, e: Event)
    requires CountsOf(counts, events, group)
    ensures CountsOf(CountEvent(counts, group, e), events + [e], group)
  {
  }

  /** A completed result that one usage row certifies. */
  ghost predicate Joined(c: Context, t: Tallies, usage: seq<UsageRow>, group: seq<Event>, e: Event, i: nat) {
    e in group && ProvedResult(t, group, e) && Certifies(c, t.digests, t.calls, usage, e, i)
  }

  function Earliest(events: seq<Event>): (first: Event)
    requires events != []
    ensures forall i | 0 <= i < |events| :: first.seqNo <= events[i].seqNo
  {
    if |events| == 1 then events[0]
    else
      var best := Earliest(events[..|events| - 1]);
      if best.seqNo < events[|events| - 1].seqNo then best else events[|events| - 1]
  }

  method FindRow(c: Context, t: Tallies, usage: seq<UsageRow>, e: Event) returns (row: Option<nat>)
    ensures row.Some? ==> Certifies(c, t.digests, t.calls, usage, e, row.value)
    ensures row.None? ==> forall i :: !Certifies(c, t.digests, t.calls, usage, e, i)
  {
    hide RowCertified, SdkBound, ParsedBound, Traces;
    row := None;
    var rows := RowsOf(c, usage, e);
    if |rows| == 1 {
      var i :| i in rows;
      assert rows == {i} by {
        assert |rows - {i}| == 0;
      }
      if RowCertified(c, usage[i]) && (SdkBound(c, t.digests, usage[i], e) || ParsedBound(t.calls, e)) {
        row := Some(i);
      }
      assert forall j | rows == {j} :: j in rows && j == i;
    } else {
      assert forall i: nat | rows == {i} :: |rows| == 1;
    }
  }

  /** The bounded interval of a settled dispatch, and of a proved result since its
      attempt's earliest dispatch. */
  ghost function WireSpan(w: Window): (seq<Event>, Event) -> Option<Interval> {
    (group: seq<Event>, d: Event) =>
      if SettledAs(group, "headers_received", d)
          || SettledAs(group, "dispatch_failed", d) then IntervalOf(w, d, EndOf(group, d)) else None
  }

  ghost function ModelSpan(w: Window, t: Tallies): (seq<Event>, Event) -> Option<Interval> {
    (group: seq<Event>, e: Event) => if ProvedResult(t, group, e) then IntervalOf(w, FirstDispatch(t, group, e), e)
        else None
  }

  /** The intervals of some events of one attempt. */
  ghost predicate SpansOf(spanOf: (seq<Event>, Event) -> Option<Interval>, group: seq<Event>, events: seq<Event>,
      intervals: seq<Interval>) {
    forall x :: x in intervals <==> exists e :: e in events && spanOf(group, e) == Some(x)
  }

  lemma SpansStep(spanOf: (seq<Event>, Event) -> Option<Interval>, group: seq<Event>, events: seq<Event>,
      intervals: seq<Interval>, e: Event)
    requires SpansOf(spanOf, group, events, intervals)
    ensures SpansOf(spanOf, group, events + [e], AddSpan(intervals, spanOf(group, e)))
  {
  }

  function AddSpan(intervals: seq<Interval>, span: Option<Interval>): seq<Interval> {
    if span.Some? then intervals + [span.value] else intervals
  }

  lemma AddedInWindow(w: Window, intervals: seq<Interval>, first: Event, last: Event)
    requires InWindow(w, intervals)
    ensures InWindow(w, AddSpan(intervals, IntervalOf(w, first, last)))
  {
  }

  /** Count one attempt's events and the wire intervals that the window bounds. */
  method MeasureDispatches(w: Window, group: seq<Event>) returns (counts: Counts, wires: seq<Interval>)
    ensures CountsOf(counts, group, group)
    ensures InWindow(w, wires)
    ensures SpansOf(WireSpan(w), group, group, wires)
  {
    counts, wires := Counts(0, 0, 0, 0, 0), [];
    assert CountsOf(counts, group[..0], group);
    hide CountsOf, CountEvent, SettledAs, IntervalOf, InWindow, EndOf, SpansOf;
    EmptyInWindow(w);
    NoSpans(WireSpan(w), group);
    for n := 0 to |group|
      invariant CountsOf(counts, group[..n], group)
      invariant InWindow(w, wires)
      invariant SpansOf(WireSpan(w), group, group[..n], wires)
    {
      var e := group[n];
      assert group[..n + 1] == group[..n] + [e];
      CountEventStep(counts, group[..n], group, e);
      SpansStep(WireSpan(w), group, group[..n], wires, e);
      counts := CountEvent(counts, group, e);
      if SettledAs(group, "headers_received", e) || SettledAs(group, "dispatch_failed", e) {
        AddedInWindow(w, wires, e, EndOf(group, e));
        wires := AddSpan(wires, IntervalOf(w, e, EndOf(group, e)));
      }
    }
    assert group[..|group|] == group;
  }

  /** Look for the usage row of the attempt's one completed result, and span the
      result from its earliest dispatch. */
  method MeasureResults(c: Context, t: Tallies, usage: seq<UsageRow>, w: Window, group: seq<Event>)
    returns (models: seq<Interval>, joined: map<Event, nat>)
    ensures InWindow(w, models)
    ensures SpansOf(ModelSpan(w, t), group, group, models)
    ensures forall e | e in joined :: Joined(c, t, usage, group, e, joined[e])
    ensures forall e, i | Joined(c, t, usage, group, e, i) :: e in joined
    ensures |joined| <= 1
  {
    models, joined := [], map[];
    hide ProvedResult, Certifies, IntervalOf, InWindow, FirstDispatch, SpansOf;
    EmptyInWindow(w);
    NoSpans(ModelSpan(w, t), group);
    for n := 0 to |group|
      invariant InWindow(w, models)
      invariant SpansOf(ModelSpan(w, t), group, group[..n], models)
      invariant forall e | e in joined :: Joined(c, t, usage, group, e, joined[e])
      invariant forall e, i | e in group[..n] && Joined(c, t, usage, group, e, i) :: e in joined
    {
      var e := group[n];
      assert group[..n + 1] == group[..n] + [e];
      SpansStep(ModelSpan(w, t), group, group[..n], models, e);
      if ProvedResult(t, group, e) {
        var row := FindRow(c, t, usage, e);
        if row.Some? {
          joined := joined[e := row.value];
        }
        AddedInWindow(w, models, FirstDispatch(t, group, e), e);
        models := AddSpan(models, IntervalOf(w, FirstDispatch(t, group, e), e));
      }
    }
    assert group[..|group|] == group;
    OneResult(c, t, usage, group, joined);
  }

  lemma NoSpans(spanOf: (seq<Event>, Event) -> Option<Interval>, group: seq<Event>)
    ensures SpansOf(spanOf, group, [], [])
  {
  }

  lemma EmptyInWindow(w: Window)
    ensures InWindow(w, [])
  {
  }

  function EndOf(group: seq<Event>, e: Event): Event
    requires SettledAs(group, "headers_received", e) || SettledAs(group, "dispatch_failed", e)
  {
    Ends(group, e.data.dispatchId)[0]
  }

  function FirstDispatch(t: Tallies, group: seq<Event>, e: Event): Event
    requires ProvedResult(t, group, e)
  {
    Earliest(Filter(group, InPhase("dispatch_started")))
  }

  lemma OneResult(c: Context, t: Tallies, usage: seq<UsageRow>, group: seq<Event>, joined: map<Event, nat>)
    requires forall e | e in joined :: Joined(c, t, usage, group, e, joined[e])
    ensures |joined| <= 1
  {
    hide ListsDispatches, Certifies;
    if a :| a in joined {
      var completed := Filter(group, InPhase("model_result_completed"));
      assert a in completed;
      forall b | b in joined ensures b == a {
        assert b in completed;
      }
      assert joined.Keys == {a};
    } else {
      assert joined.Keys == {};
    }
  }

  // ---------------------------------------------------------------- the whole task

  function OwnedBy(c: Context): Event -> bool {
    (e: Event) => !AdapterPhase(e) && InScope(c, e) && Proved(c, e)
  }

  /** The events of the same physical attempt. */
  ghost function AttemptOf(owned: seq<Event>, e: Event): seq<Event> {
    Members(owned, KeyOf(), KeyFor(e))
  }

  ghost function SettledAmong(owned: seq<Event>, phase: string): Event -> bool {
    (e: Event) => SettledAs(AttemptOf(owned, e), phase, e)
  }

  /** How often each outcome occurs in the attempts `done`. */
  ghost predicate CountsIn(counts: Counts, owned: seq<Event>, done: set<Key>) {
    && counts.starts == CountIn(owned, KeyOf(), done, Dispatched())
    && counts.headers == CountIn(owned, KeyOf(), done, SettledAmong(owned, "headers_received"))
    && counts.failures == CountIn(owned, KeyOf(), done, SettledAmong(owned, "dispatch_failed"))
    && counts.retired == CountIn(owned, KeyOf(), done, InPhase("model_attempt_retired"))
    && counts.results == CountIn(owned, KeyOf(), done, InPhase("model_result_completed"))
  }

  function AddCounts(a: Counts, b: Counts): Counts {
    Counts(a.starts + b.starts, a.headers + b.headers, a.failures + b.failures, a.retired + b.retired,
           a.results + b.results)
  }

  lemma CountsStep(counts: Counts, owned: seq<Event>, done: set<Key>, k: Key, more: Counts)
    requires CountsIn(counts, owned, done) && k !in done
    requires CountsOf(more, Members(owned, KeyOf(), k), Members(owned, KeyOf(), k))
    ensures CountsIn(AddCounts(counts, more), owned, done + {k})
  {
    hide ValidDispatch, SettledAs, Count, CountIn;
    var group := Members(owned, KeyOf(), k);
    MembersAre(owned, KeyOf(), k);
    CountSame(group, SettledIn(group, "headers_received"), SettledAmong(owned, "headers_received"));
    CountSame(group, SettledIn(group, "dispatch_failed"), SettledAmong(owned, "dispatch_failed"));
    CountGroup(owned, KeyOf(), done, k, Dispatched());
    CountGroup(owned, KeyOf(), done, k, SettledAmong(owned, "headers_received"));
    CountGroup(owned, KeyOf(), done, k, SettledAmong(owned, "dispatch_failed"));
    CountGroup(owned, KeyOf(), done, k, InPhase("model_attempt_retired"));
    CountGroup(owned, KeyOf(), done, k, InPhase("model_result_completed"));
  }

  lemma CountsStart(owned: seq<Event>)
    ensures CountsIn(Counts(0, 0, 0, 0, 0), owned, {})
  {
    hide ValidDispatch, SettledAs;
    CountNoGroups(owned, KeyOf(), Dispatched());
    CountNoGroups(owned, KeyOf(), SettledAmong(owned, "headers_received"));
    CountNoGroups(owned, KeyOf(), SettledAmong(owned, "dispatch_failed"));
    CountNoGroups(owned, KeyOf(), InPhase("model_attempt_retired"));
    CountNoGroups(owned, KeyOf(), InPhase("model_result_completed"));
  }

  /** Over the whole task, every event is counted once. */
  ghost predicate CountsAll(counts: Counts, owned: seq<Event>) {
    && counts.starts == Count(owned, Dispatched())
    && counts.headers == Count(owned, SettledAmong(owned, "headers_received"))
    && counts.failures == Count(owned, SettledAmong(owned, "dispatch_failed"))
    && counts.retired == Count(owned, InPhase("model_attempt_retired"))
    && counts.results == Count(owned, InPhase("model_result_completed"))
  }

  lemma CountsEnd(counts: Counts, owned: seq<Event>, done: set<Key>)
    requires CountsIn(counts, owned, done)
    requires forall e | e in owned :: KeyFor(e) in done
    ensures CountsAll(counts, owned)
  {
    hide ValidDispatch, SettledAs;
    assert forall e | e in owned :: KeyOf()(e).Some?;
    CountAllGroups(owned, KeyOf(), done, Dispatched());
    CountAllGroups(owned, KeyOf(), done, SettledAmong(owned, "headers_received"));
    CountAllGroups(owned, KeyOf(), done, SettledAmong(owned, "dispatch_failed"));
    CountAllGroups(owned, KeyOf(), done, InPhase("model_attempt_retired"));
    CountAllGroups(owned, KeyOf(), done, InPhase("model_result_completed"));
  }

  /** The joins of the attempts `done`: nothing else, and all of them. */
  ghost predicate JoinsSound(c: Context, t: Tallies, usage: seq<UsageRow>, owned: seq<Event>, done: set<Key>,
      joins: map<Event, nat>) {
    forall e | e in joins :: e in owned && KeyFor(e) in done && Joined(c, t, usage, AttemptOf(owned, e), e, joins[e])
  }

  ghost predicate JoinsComplete(c: Context, t: Tallies, usage: seq<UsageRow>, owned: seq<Event>, done: set<Key>,
      joins: map<Event, nat>) {
    forall e, i | e in owned && KeyFor(e) in done && Joined(c, t, usage, AttemptOf(owned, e), e, i) :: e in joins
  }

  ghost predicate JoinsIn(c: Context, t: Tallies, usage: seq<UsageRow>, owned: seq<Event>, done: set<Key>,
      joins: map<Event, nat>) {
    JoinsSound(c, t, usage, owned, done, joins) && JoinsComplete(c, t, usage, owned, done, joins)
  }

  lemma JoinedIsMember(c: Context, t: Tallies, usage: seq<UsageRow>, group: seq<Event>, e: Event, i: nat)
    requires Joined(c, t, usage, group, e, i)
    ensures e in group && Phase(e, "model_result_completed") && i < |usage|
        && Certifies(c, t.digests, t.calls, usage, e, i)
  {
  }

  lemma SoundStep(c: Context, t: Tallies, usage: seq<UsageRow>, owned: seq<Event>, done: set<Key>,
      joins: map<Event, nat>, k: Key, more: map<Event, nat>)
    requires JoinsSound(c, t, usage, owned, done, joins)
    requires forall e | e in more :: Joined(c, t, usage, Members(owned, KeyOf(), k), e, more[e])
    ensures JoinsSound(c, t, usage, owned, done + {k}, joins + more)
    ensures forall e | e in more :: KeyFor(e) == k
  {
    hide Joined, KeyFor;
    forall e | e in more ensures e in owned && KeyFor(e) == k {
      MembersAre(owned, KeyOf(), k);
      JoinedIsMember(c, t, usage, Members(owned, KeyOf(), k), e, more[e]);
    }
  }

  lemma CompleteStep(c: Context, t: Tallies, usage: seq<UsageRow>, owned: seq<Event>, done: set<Key>,
      joins: map<Event, nat>, k: Key, more: map<Event, nat>)
    requires JoinsComplete(c, t, usage, owned, done, joins)
    requires forall e, i | Joined(c, t, usage, Members(owned, KeyOf(), k), e, i) :: e in more
    ensures JoinsComplete(c, t, usage, owned, done + {k}, joins + more)
  {
  }

  lemma JoinsStep(c: Context, t: Tallies, usage: seq<UsageRow>, owned: seq<Event>, done: set<Key>,
      joins: map<Event, nat>, k: Key, more: map<Event, nat>)
    requires JoinsIn(c, t, usage, owned, done, joins) && k !in done
    requires forall e | e in more :: Joined(c, t, usage, Members(owned, KeyOf(), k), e, more[e])
    requires forall e, i | Joined(c, t, usage, Members(owned, KeyOf(), k), e, i) :: e in more
    ensures JoinsIn(c, t, usage, owned, done + {k}, joins + more)
    ensures |joins + more| == |joins| + |more|
  {
    hide Joined, KeyFor, JoinsComplete;
    SoundStep(c, t, usage, owned, done, joins, k, more);
    CompleteStep(c, t, usage, owned, done, joins, k, more);
    assert (joins + more).Keys == joins.Keys + more.Keys && joins.Keys !! more.Keys;
  }

  ghost predicate TalliedFor(owned: seq<Event>, t: Tallies) {
    && Tallied(owned, WireKey(), t.wires) && Tallied(owned, ReceiptKey(), t.receipts)
    && Tallied(Filter(owned, InPhase("model_result_completed")), DigestKey(), t.digests)
    && Tallied(Filter(owned, InPhase("model_result_completed")), CallKey(), t.calls)
  }

  lemma JoinsAreInjective(c: Context, t: Tallies, usage: seq<UsageRow>, owned: seq<Event>, done: set<Key>,
      joins: map<Event, nat>)
    requires TalliedFor(owned, t) && JoinsIn(c, t, usage, owned, done, joins)
    ensures Injective(joins, usage)
    ensures |joins| <= |usage| && |joins| <= Count(owned, InPhase("model_result_completed"))
  {
    var results := Filter(owned, InPhase("model_result_completed"));
    hide Joined, Certifies, Tallied, AttemptOf;
    forall e | e in joins ensures e in results && joins[e] < |usage|
        && Certifies(c, t.digests, t.calls, usage, e, joins[e]) {
      JoinedIsMember(c, t, usage, AttemptOf(owned, e), e, joins[e]);
    }
    forall a, b | a in joins && b in joins && joins[a] == joins[b] ensures a == b {
      OneResultPerRow(c, results, t.digests, t.calls, usage, a, b, joins[a]);
    }
    NoMoreJoinsThanRows(joins, usage);
    CountBounds(owned, InPhase("model_result_completed"), joins.Keys);
  }

  lemma JoinsStart(c: Context, t: Tallies, usage: seq<UsageRow>, owned: seq<Event>)
    ensures JoinsIn(c, t, usage, owned, {}, map[])
  {
  }

  /** The intervals of the attempts `done`. */
  ghost predicate Collected(spanOf: (seq<Event>, Event) -> Option<Interval>, owned: seq<Event>, done: set<Key>,
      intervals: seq<Interval>) {
    forall x :: x in intervals <==> exists e ::
                                      e in owned && KeyFor(e) in done && spanOf(AttemptOf(owned, e), e) == Some(x)
  }

  lemma CollectedStep(spanOf: (seq<Event>, Event) -> Option<Interval>, owned: seq<Event>, done: set<Key>,
      intervals: seq<Interval>, k: Key, more: seq<Interval>)
    requires Collected(spanOf, owned, done, intervals)
    requires SpansOf(spanOf, Members(owned, KeyOf(), k), Members(owned, KeyOf(), k), more)
    ensures Collected(spanOf, owned, done + {k}, intervals + more)
  {
    hide KeyFor;
    MembersAre(owned, KeyOf(), k);
    forall x
      ensures x in intervals + more
              <==> exists e ::
                     e in owned && KeyFor(e) in done + {k} && spanOf(AttemptOf(owned, e), e) == Some(x) {
      if x in intervals {
        var e :| e in owned && KeyFor(e) in done && spanOf(AttemptOf(owned, e), e) == Some(x);
      } else if x in more {
        var e :| e in Members(owned, KeyOf(), k) && spanOf(Members(owned, KeyOf(), k), e) == Some(x);
        assert KeyFor(e) == k;
      }
    }
  }

  lemma NothingCollected(spanOf: (seq<Event>, Event) -> Option<Interval>, owned: seq<Event>)
    ensures Collected(spanOf, owned, {}, [])
  {
  }

  method MeasureGroups(c: Context, t: Tallies, owned: seq<Event>, groups: map<Key, seq<Event>>, usage: seq<UsageRow>,
      w: Window)
    returns (counts: Counts, joined: nat, wires: seq<Interval>, models: seq<Interval>, ghost joins: map<Event, nat>)
    requires Grouped(owned, KeyOf(), groups)
    ensures CountsIn(counts, owned, groups.Keys)
    ensures JoinsIn(c, t, usage, owned, groups.Keys, joins) && joined == |joins|
    ensures InWindow(w, wires) && InWindow(w, models)
    ensures Collected(WireSpan(w), owned, groups.Keys, wires) && Collected(ModelSpan(w, t), owned, groups.Keys, models)
  {
    hide *;
    NothingCollected(WireSpan(w), owned);
    NothingCollected(ModelSpan(w, t), owned);
    counts, joined, wires, models, joins := Counts(0, 0, 0, 0, 0), 0, [], [], map[];
    var todo := groups.Keys;
    CountsStart(owned);
    JoinsStart(c, t, usage, owned);
    EmptyInWindow(w);
    assert groups.Keys - todo == {};
    while todo != {}
      invariant todo <= groups.Keys
      invariant CountsIn(counts, owned, groups.Keys - todo)
      invariant JoinsIn(c, t, usage, owned, groups.Keys - todo, joins) && joined == |joins|
      invariant InWindow(w, wires) && InWindow(w, models)
      invariant Collected(WireSpan(w), owned, groups.Keys - todo, wires)
          && Collected(ModelSpan(w, t), owned, groups.Keys - todo, models)
    {
      var k :| k in todo;
      assert groups.Keys - (todo - {k}) == groups.Keys - todo + {k};
      GroupIs(owned, groups, k);
      var more, wireSpans := MeasureDispatches(w, groups[k]);
      var modelSpans, found := MeasureResults(c, t, usage, w, groups[k]);
      CountsStep(counts, owned, groups.Keys - todo, k, more);
      JoinsStep(c, t, usage, owned, groups.Keys - todo, joins, k, found);
      CollectedStep(WireSpan(w), owned, groups.Keys - todo, wires, k, wireSpans);
      CollectedStep(ModelSpan(w, t), owned, groups.Keys - todo, models, k, modelSpans);
      BothInWindow(w, wires, wireSpans);
      BothInWindow(w, models, modelSpans);
      counts, joined, joins := AddCounts(counts, more), joined + |found|, joins + found;
      wires, models, todo := wires + wireSpans, models + modelSpans, todo - {k};
    }
    assert groups.Keys - todo == groups.Keys;
  }

  lemma GroupIs(owned: seq<Event>, groups: map<Key, seq<Event>>, k: Key)
    requires Grouped(owned, KeyOf(), groups) && k in groups
    ensures groups[k] == Members(owned, KeyOf(), k)
  {
  }

  lemma BothInWindow(w: Window, a: seq<Interval>, b: seq<Interval>)
    requires InWindow(w, a) && InWindow(w, b)
    ensures InWindow(w, a + b)
  {
  }

  lemma AllJoined(c: Context, t: Tallies, usage: seq<UsageRow>, owned: seq<Event>, groups: map<Key, seq<Event>>,
      joins: map<Event, nat>)
    requires Grouped(owned, KeyOf(), groups) && JoinsIn(c, t, usage, owned, groups.Keys, joins)
    ensures forall e | e in owned :: KeyFor(e) in groups
    ensures forall e, i :: e in joins && joins[e] == i <==> e in owned && Joined(c, t, usage, AttemptOf(owned, e), e, i)
  {
    GroupsAre(owned, KeyOf(), groups);
    hide ProvedResult;
    forall e, i | e in owned && Joined(c, t, usage, AttemptOf(owned, e), e, i) ensures e in joins && joins[e] == i {
      assert KeyFor(e) in groups;
      assert i in {joins[e]};
    }
  }

  lemma ResultsCounted(counts: Counts, owned: seq<Event>)
    requires CountsAll(counts, owned)
    ensures counts.results == Count(owned, InPhase("model_result_completed"))
  {
  }

  /** The intervals of all owned events. */
  ghost predicate CollectedAll(spanOf: (seq<Event>, Event) -> Option<Interval>, owned: seq<Event>,
      intervals: seq<Interval>) {
    forall x :: x in intervals <==> exists e :: e in owned && spanOf(AttemptOf(owned, e), e) == Some(x)
  }

  lemma CollectedEnd(spanOf: (seq<Event>, Event) -> Option<Interval>, owned: seq<Event>, done: set<Key>,
      intervals: seq<Interval>)
    requires Collected(spanOf, owned, done, intervals) && forall e | e in owned :: KeyFor(e) in done
    ensures CollectedAll(spanOf, owned, intervals)
  {
  }

  datatype Observation = Observation(
    counts: Option<Counts>, exactResponseUsageJoins: Option<nat>, elapsedMs: Option<int>,
    wireUnionMs: Option<int>, modelUnionMs: Option<int>, afterDeliveryEvents: nat)

  /** The event's own clock places it after the delivery. */
  function AfterDelivery(w: Window): Event -> bool {
    (e: Event) => w.end.Some? && EventTime(e).Some? && EventTime(e).value > w.end.value
  }

  method CountLate(w: Window, owned: seq<Event>) returns (late: nat)
    ensures late == Count(owned, AfterDelivery(w))
  {
    late := 0;
    for n := 0 to |owned|
      invariant late == Count(owned[..n], AfterDelivery(w))
    {
      assert owned[..n + 1] == owned[..n] + [owned[n]];
      CountStep(owned[..n], AfterDelivery(w), owned[n]);
      if AfterDelivery(w)(owned[n]) {
        late := late + 1;
      }
    }
    assert owned[..|owned|] == owned;
  }

  /** Every owned event is counted once; the joins are exactly the results that
      some row certifies, and no row certifies two of them; both time unions fit
      in the accepted-to-delivery window. */
  method MeasureTransport(c: Context, events: seq<Event>, usage: seq<UsageRow>, w: Window)
    returns (m: Observation, ghost owned: seq<Event>, ghost t: Tallies, ghost joins: map<Event, nat>,
        ghost spans: (seq<Interval>, seq<Interval>))
    ensures owned == Filter(events, OwnedBy(c)) && TalliedFor(owned, t)
    ensures m.counts.Some? <==> owned != []
    ensures m.counts.Some? ==> CountsAll(m.counts.value, owned)
    ensures m.exactResponseUsageJoins == if m.counts.Some? then Some(|joins|) else None
    ensures forall e, i :: e in joins && joins[e] == i <==> e in owned && Joined(c, t, usage, AttemptOf(owned, e), e, i)
    ensures Injective(joins, usage)
    ensures m.counts.Some? ==> |joins| <= |usage| && |joins| <= m.counts.value.results
    ensures m.afterDeliveryEvents == Count(owned, AfterDelivery(w))
    ensures m.elapsedMs == if w.Proved() then Some(w.end.value - w.start.value) else None
    ensures CollectedAll(WireSpan(w), owned, spans.0) && CollectedAll(ModelSpan(w, t), owned, spans.1)
    ensures m.wireUnionMs == (if spans.0 == [] then None else Some(|Covered(spans.0)|))
    ensures m.modelUnionMs == (if spans.1 == [] then None else Some(|Covered(spans.1)|))
    ensures m.wireUnionMs.Some? ==> m.elapsedMs.Some? && 0 <= m.wireUnionMs.value <= m.elapsedMs.value
    ensures m.modelUnionMs.Some? ==> m.elapsedMs.Some? && 0 <= m.modelUnionMs.value <= m.elapsedMs.value
  {
    var own := Filter(events, OwnedBy(c));
    owned := own;
    var groups := Group(own, KeyOf());
    var wireIds := Tally(own, WireKey());
    var receipts := Tally(own, ReceiptKey());
    var results := Filter(own, InPhase("model_result_completed"));
    var digests := Tally(results, DigestKey());
    var calls := Tally(results, CallKey());
    var tallies := Tallies(wireIds, receipts, digests, calls);
    t := tallies;
    assert TalliedFor(own, t);
    var counts, joined, wires, models;
    hide *;
    counts, joined, wires, models, joins := MeasureGroups(c, tallies, own, groups, usage, w);
    AllJoined(c, tallies, usage, own, groups, joins);
    CountsEnd(counts, own, groups.Keys);
    JoinsAreInjective(c, tallies, usage, own, groups.Keys, joins);
    ResultsCounted(counts, own);
    spans := (wires, models);
    CollectedEnd(WireSpan(w), own, groups.Keys, wires);
    CollectedEnd(ModelSpan(w, tallies), own, groups.Keys, models);
    var wireMs := UnionMs(w, wires);
    var modelMs := UnionMs(w, models);
    var late := CountLate(w, own);
    m := Observation(if own == [] then None else Some(counts), if own == [] then None else Some(joined),
                     if w.Proved() then Some(w.end.value - w.start.value) else None, wireMs, modelMs, late);
  }
}
