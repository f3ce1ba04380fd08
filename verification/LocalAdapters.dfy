/** Local adapter endpoints of the model calls of one task: one created and one
    finished event for each physical attempt (scripts/session-comparison.ts,
    measureLocalAdapterAttempts). */
module LocalAdapters {
  import opened Groups
  import opened Identifiers
  import opened Json
  import opened LastOwner
  import opened Transport
  import opened Usage

  /** A letter or digit, then at most 239 of letters, digits, `.`, `_`, `:` and `-`. */
  predicate LocalIdentity(v: Value) {
    && v.Str? && 0 < |v.s| <= 240 && IsWordChar(v.s[0])
    && forall ch | ch in v.s :: IsWordChar(ch) || ch in "._:-"
  }

  predicate OneOf(v: Value, allowed: seq<string>) {
    v.Str? && v.s in allowed
  }

  predicate ProvedEndpoint(c: Context, e: Event) {
    && Proved(c, e) && LocalIdentity(e.data.runAttemptId) && LocalIdentity(e.data.modelCallId)
    && OneOf(e.data.ownerKind, ["accepted_source_scope", "accounting_parent"])
    && OneOf(e.data.purpose, ["brain", "worker", "reviewer", "router", "writer", "memory", "unknown"])
    && (e.data.usageJobId.Absent? || LocalIdentity(e.data.usageJobId))
  }

  function EndpointsOf(c: Context): Event -> bool {
    (e: Event) => AdapterPhase(e) && InScope(c, e) && ProvedEndpoint(c, e)
  }

  /** Who made the call: its source, attempt, owner, job and purpose. */
  type Namespace = (Value, Value, Value, Value, Value)

  function NamespaceOf(e: Event): Namespace {
    (e.data.sourceUserSeq, e.data.runAttemptId, e.data.ownerKind,
     if e.data.usageJobId.Absent? then Null else e.data.usageJobId, e.data.purpose)
  }

  ghost function Callers(events: seq<Event>): set<(string, Namespace)> {
    set e | e in events :: (TextOf(e.data.modelCallId), NamespaceOf(e))
  }

  /** The calls that two namespaces claim, although each event is compared only
      with the call's last claim. */
  method FindConflictingCalls(events: seq<Event>) returns (conflicting: set<string>)
    ensures conflicting == ContestedKeys(Callers(events))
  {
    hide NamespaceOf, ContestedKeys, Tracks;
    conflicting := {};
    var callOwners: map<string, Namespace> := map[];
    NoCallers();
    for n := 0 to |events|
      invariant Tracks(Callers(events[..n]), callOwners)
      invariant conflicting == ContestedKeys(Callers(events[..n]))
    {
      var call, owner := TextOf(events[n].data.modelCallId), NamespaceOf(events[n]);
      assert events[..n + 1] == events[..n] + [events[n]];
      assert Callers(events[..n + 1]) == Callers(events[..n]) + {(call, owner)};
      ObserveOwner(Callers(events[..n]), callOwners, call, owner);
      ObserveIdentity(Callers(events[..n]), callOwners, call, owner);
      if call in callOwners && callOwners[call] != owner {
        conflicting := conflicting + {call};
      } else {
        assert conflicting + {} == conflicting;
      }
      callOwners := callOwners[call := owner];
    }
    assert events[..|events|] == events;
  }

  lemma NoCallers()
    ensures Callers([]) == {} && Tracks<string, Namespace>({}, map[]) && ContestedKeys<string, Namespace>({}) == {}
  {
  }

  // ---------------------------------------------------------------- wire traffic

  /** The window of the task and the bounds of its attempts. */
  datatype Clock = Clock(window: Window, bounds: map<string, (Option<int>, Option<int>)>)
  {
    predicate Inside(at: Option<int>, lo: int, hi: int) {
      at.Some? && lo <= at.value <= hi
    }

    /** Reported and stored time lie in the window and in the attempt's bounds. */
    predicate Bounded(e: Event) {
      && window.Proved() && Exact(e.data.runAttemptId) && e.data.runAttemptId.s in bounds
      && var (lo, hi) := bounds[e.data.runAttemptId.s];
      && lo.Some? && hi.Some? && lo.value <= hi.value
      && Inside(EventTime(e), window.start.value, window.end.value)
      && Inside(e.createdAt, window.start.value, window.end.value)
      && Inside(EventTime(e), lo.value, hi.value) && Inside(e.createdAt, lo.value, hi.value)
    }

    function At(e: Event): int {
      EventTime(e).GetOr(0)
    }
  }

  /** The wire events of one physical attempt of a call. */
  function Traffic(events: seq<Event>, of: Event): seq<Event> {
    Filter(events, (e: Event) => !AdapterPhase(e) && e.data.modelCallId == of.data.modelCallId
           && e.data.physicalAttempt == of.data.physicalAttempt)
  }

  function Dispatches(events: seq<Event>, of: Event): seq<Event> {
    Filter(Traffic(events, of), InPhase("dispatch_started"))
  }

  predicate Settling(e: Event) {
    Phase(e, "model_attempt_retired") || Phase(e, "model_result_completed")
  }

  /** The raw key of a wire event: an unproved one may match nothing. */
  function RawKey(e: Event): (Value, Value, Value, Value) {
    (e.data.sourceUserSeq, e.data.runAttemptId, e.data.modelCallId, e.data.physicalAttempt)
  }

  /** A wire event of the attempt lies between its endpoints, or settles it later. */
  predicate WireFits(k: Clock, first: Event, last: Event, e: Event) {
    && RawKey(e) == RawKey(last) && NamespaceOf(e) == NamespaceOf(first)
    && e.data.logicalTurnId == first.data.logicalTurnId
    && e.role == "system" && e.data.version == Num(1.0) && e.data.journalFailed == Bool(false)
    && e.data.late != Bool(true)
    && first.seqNo < e.seqNo && (e.seqNo < last.seqNo || Settling(e)) && k.Bounded(e) && k.At(first) <= k.At(e)
    && (k.At(e) <= k.At(last) || (last.seqNo < e.seqNo && Settling(e) && k.At(e) <= k.window.end.GetOr(0)))
  }

  function EndsOf(events: seq<Event>, last: Event, d: Event): seq<Event> {
    Filter(Traffic(events, last), (e: Event) => e.data.dispatchId == d.data.dispatchId
           && (Phase(e, "headers_received") || Phase(e, "dispatch_failed")))
  }

  predicate DispatchEnds(k: Clock, events: seq<Event>, last: Event, d: Event) {
    var ends := EndsOf(events, last, d);
    && OneOf(d.data.transport, ["raw_claude_messages", "typesafe_systemone"]) && |ends| == 1
    && d.seqNo < ends[0].seqNo < last.seqNo && ends[0].data.transport == d.data.transport
    && ends[0].data.wireSubattempt == d.data.wireSubattempt && k.At(d) <= k.At(ends[0])
  }

  /** The one result that settles a dispatched attempt agrees with its finish. */
  predicate ResultAgrees(receipts: map<string, nat>, last: Event, result: Event) {
    && result.data.dispatchIds == last.data.dispatchIds && result.data.dispatchIds.Some?
    && LocalIdentity(result.data.hostResultReceiptId) && CountOf(receipts, TextOf(result.data.hostResultReceiptId)) == 1
    && result.data.resultScope == last.data.resultScope
    && if last.data.resultScope == Str("original_sdk_response")
       then Phase(result, "model_result_completed")
           && result.data.providerResponseIdDigest == last.data.providerResponseIdDigest
       else && result.data.outcome == last.data.outcome && result.data.usage == last.data.usage
            && result.data.remoteSettlement == last.data.remoteSettlement
            && if last.data.resultScope == Str("owned_systemone_parser")
               then Phase(result, "model_result_completed")
                   && result.data.providerReportedModel == last.data.providerReportedModel
               else Phase(result, "model_attempt_retired")
  }

  /** How often each dispatch starts and each receipt settles, over all events. */
  function DispatchKey(): Event -> Option<string> {
    (e: Event) => if Phase(e, "dispatch_started") && Exact(e.data.dispatchId) then Some(e.data.dispatchId.s) else None
  }

  function SettledKey(): Event -> Option<string> {
    (e: Event) => if Settling(e) && Exact(e.data.hostResultReceiptId) then Some(e.data.hostResultReceiptId.s) else None
  }

  /** The finish lists exactly the attempt's dispatches, in order; each is listed
      nowhere else, and has one end. */
  predicate Listed(k: Clock, events: seq<Event>, dispatched: map<string, nat>, last: Event) {
    var ids, dispatches := last.data.dispatchIds.GetOr([]), Dispatches(events, last);
    && last.data.dispatchIds.Some? && |ids| == |dispatches|
    && (forall i | 0 <= i < |ids| ::
          Exact(ids[i]) && ids[i] == dispatches[i].data.dispatchId && CountOf(dispatched, TextOf(ids[i])) == 1
                                     && dispatches[i].data.wireSubattempt == Num((i + 1) as real))
    && (forall i, j | 0 <= i < j < |ids| :: ids[i] != ids[j])
    && forall d | d in dispatches :: DispatchEnds(k, events, last, d)
  }

  /** One attempt agrees with its wire traffic and with the clocks. */
  predicate Backed(k: Clock, events: seq<Event>, dispatched: map<string, nat>, receipts: map<string, nat>, first: Event,
      last: Event) {
    var results := Filter(Traffic(events, last), (e: Event) => Settling(e));
    && k.Bounded(first) && k.Bounded(last) && k.At(first) <= k.At(last)
    && first.createdAt.GetOr(0) <= last.createdAt.GetOr(0)
    && Listed(k, events, dispatched, last) && (forall e | e in Traffic(events, last) :: WireFits(k, first, last, e))
    && |results| == (if Dispatches(events, last) == [] then 0 else 1)
    && forall result | result in results :: ResultAgrees(receipts, last, result)
  }

  /** The comparison of a whole group; only groups with one start and one finish
      can pass it. */
  function Corroboration(k: Clock, events: seq<Event>, dispatched: map<string, nat>,
      receipts: map<string, nat>): seq<Event> -> bool {
    (group: seq<Event>) => |Starts(group)| == 1 && |Finishes(group)| == 1
                           && Backed(k, events, dispatched, receipts, Starts(group)[0], Finishes(group)[0])
  }

  /** What the pass knows about all endpoints; `corroborated` compares one attempt
      with its wire traffic and the clocks. */
  datatype Checks = Checks(
    conflicting: set<string>, digests: map<string, nat>, calls: map<string, nat>, corroborated: seq<Event> -> bool)

  function Starts(group: seq<Event>): seq<Event> {
    Filter(group, InPhase("adapter_attempt_created"))
  }

  function Finishes(group: seq<Event>): seq<Event> {
    Filter(group, InPhase("adapter_attempt_finished"))
  }

  /** One start and one later finish that tell a consistent story. */
  predicate ValidAttempt(x: Checks, group: seq<Event>) {
    && |Starts(group)| == 1 && |Finishes(group)| == 1
    && var first, last := Starts(group)[0], Finishes(group)[0];
    && first.seqNo < last.seqNo && NamespaceOf(first) == NamespaceOf(last)
    && first.data.resultScope == Str("local_adapter_attempt") && first.data.dispatchIds == Some([])
    && OneOf(last.data.outcome, ["returned", "failed", "cancelled"])
    && OneOf(last.data.resultScope, ["original_sdk_response", "owned_systemone_parser", "local_retirement"])
    && OneOf(last.data.usage, ["reported", "unknown"])
    && OneOf(last.data.remoteSettlement, ["parsed_response", "unknown"])
    && TextOf(last.data.modelCallId) !in x.conflicting
    && (forall e | e in group :: e.data.journalFailed == Bool(false))
    && x.corroborated(group)
    && (last.data.resultScope == Str("original_sdk_response") ==>
          last.data.providerResponseIdDigest.Str? && Digest(last.data.providerResponseIdDigest.s))
    && (last.data.resultScope == Str("owned_systemone_parser") ==>
          last.data.outcome == Str("returned") && last.data.remoteSettlement == Str("parsed_response")
              && LocalIdentity(last.data.providerReportedModel))
    && (last.data.resultScope == Str("local_retirement") ==>
          last.data.usage == Str("unknown") && last.data.remoteSettlement == Str("unknown")
              && last.data.providerResponseIdDigest.Absent?)
  }

  predicate Ended(x: Checks, outcome: string, group: seq<Event>) {
    ValidAttempt(x, group) && Finishes(group)[0].data.outcome == Str(outcome)
  }

  predicate Original(x: Checks, group: seq<Event>) {
    && ValidAttempt(x, group) && Finishes(group)[0].data.resultScope == Str("original_sdk_response")
    && CountOf(x.digests, TextOf(Finishes(group)[0].data.providerResponseIdDigest)) == 1
  }

  predicate OwnedParsed(x: Checks, group: seq<Event>) {
    ValidAttempt(x, group) && Finishes(group)[0].data.resultScope == Str("owned_systemone_parser")
  }

  /** The usage row's role is the purpose of the call, and a parsed result names
      the model that the row reports. */
  predicate RowFits(row: UsageRow, last: Event) {
    && last.data.purpose == Str(row.role.GetOr("")) && row.role.Some? && last.data.outcome == Str("returned")
    && (last.data.resultScope == Str("owned_systemone_parser") ==>
          row.providerReportedModel.Some? && last.data.providerReportedModel == Str(row.providerReportedModel.value))
  }

  ghost predicate JoinedEndpoint(c: Context, x: Checks, usage: seq<UsageRow>, group: seq<Event>, e: Event, i: nat) {
    && ValidAttempt(x, group) && e == Finishes(group)[0]
    && Certifies(c, x.digests, x.calls, usage, e, i) && RowFits(usage[i], e)
  }

  // ---------------------------------------------------------------- counting attempts

  type Attempts = map<Key, seq<Event>>

  datatype EndpointCounts = EndpointCounts(
    created: nat, terminals: nat, returned: nat, failed: nat, cancelled: nat, noDispatch: nat, originals: nat,
    parsed: nat)

  predicate NoDispatch(x: Checks, group: seq<Event>) {
    ValidAttempt(x, group) && Finishes(group)[0].data.dispatchIds.GetOr([]) == []
  }

  function AddAttempt(counts: EndpointCounts, x: Checks, group: seq<Event>): EndpointCounts {
    EndpointCounts(counts.created + (if |Starts(group)| == 1 then 1 else 0),
                   counts.terminals + (if |Finishes(group)| == 1 then 1 else 0),
                   counts.returned + (if Ended(x, "returned", group) then 1 else 0),
                   counts.failed + (if Ended(x, "failed", group) then 1 else 0),
                   counts.cancelled + (if ValidAttempt(x, group) && !Ended(x, "returned", group)
                       && !Ended(x, "failed", group) then 1 else 0),
                   counts.noDispatch + (if NoDispatch(x, group) then 1 else 0),
                   counts.originals + (if Original(x, group) then 1 else 0),
                   counts.parsed + (if OwnedParsed(x, group) then 1 else 0))
  }

  /** The attempts of `done` whose events satisfy `p`. */
  ghost function Chosen(groups: Attempts, done: set<Key>, p: seq<Event> -> bool): set<Key> {
    set k | k in done && k in groups && p(groups[k])
  }

  lemma ChosenStep(groups: Attempts, done: set<Key>, p: seq<Event> -> bool, k: Key)
    requires k in groups && k !in done
    ensures |Chosen(groups, done + {k}, p)| == |Chosen(groups, done, p)| + if p(groups[k]) then 1 else 0
  {
    if p(groups[k]) {
      assert Chosen(groups, done + {k}, p) == Chosen(groups, done, p) + {k};
    } else {
      assert Chosen(groups, done + {k}, p) == Chosen(groups, done, p);
    }
  }

  lemma ChosenSplit(groups: Attempts, p: seq<Event> -> bool, q: seq<Event> -> bool, r: seq<Event> -> bool)
    requires forall k | k in groups ::
               (p(groups[k]) <==> q(groups[k]) || r(groups[k])) && !(q(groups[k]) && r(groups[k]))
    ensures |Chosen(groups, groups.Keys, p)| == |Chosen(groups, groups.Keys, q)| + |Chosen(groups, groups.Keys, r)|
  {
    var keys := groups.Keys;
    assert Chosen(groups, keys, p) == Chosen(groups, keys, q) + Chosen(groups, keys, r);
    assert Chosen(groups, keys, q) !! Chosen(groups, keys, r);
  }

  lemma ChosenBounds(groups: Attempts, p: seq<Event> -> bool, q: seq<Event> -> bool)
    requires forall k | k in groups :: p(groups[k]) ==> q(groups[k])
    ensures |Chosen(groups, groups.Keys, p)| <= |Chosen(groups, groups.Keys, q)| <= |groups|
  {
    SubsetSize(Chosen(groups, groups.Keys, p), Chosen(groups, groups.Keys, q));
    SubsetSize(Chosen(groups, groups.Keys, q), groups.Keys);
  }

  ghost function Created(): seq<Event> -> bool { (g: seq<Event>) => |Starts(g)| == 1 }
  ghost function Finished(): seq<Event> -> bool { (g: seq<Event>) => |Finishes(g)| == 1 }
  ghost function EndedIn(x: Checks, outcome: string): seq<Event> -> bool { (g: seq<Event>) => Ended(x, outcome, g) }
  ghost function Undispatched(x: Checks): seq<Event> -> bool { (g: seq<Event>) => NoDispatch(x, g) }
  ghost function WithOriginal(x: Checks): seq<Event> -> bool { (g: seq<Event>) => Original(x, g) }
  ghost function WithParsed(x: Checks): seq<Event> -> bool { (g: seq<Event>) => OwnedParsed(x, g) }

  /** Each attempt is counted once under everything it shows. */
  ghost predicate Counted(counts: EndpointCounts, x: Checks, groups: Attempts, done: set<Key>) {
    && counts.created == |Chosen(groups, done, Created())|
    && counts.terminals == |Chosen(groups, done, Finished())|
    && counts.returned == |Chosen(groups, done, EndedIn(x, "returned"))|
    && counts.failed == |Chosen(groups, done, EndedIn(x, "failed"))|
    && counts.cancelled == |Chosen(groups, done, EndedIn(x, "cancelled"))|
    && counts.noDispatch == |Chosen(groups, done, Undispatched(x))|
    && counts.originals == |Chosen(groups, done, WithOriginal(x))|
    && counts.parsed == |Chosen(groups, done, WithParsed(x))|
  }

  lemma OneEnding(x: Checks, group: seq<Event>)
    ensures ValidAttempt(x, group) && !Ended(x, "returned", group) && !Ended(x, "failed", group)
            <==> Ended(x, "cancelled", group)
  {
  }

  lemma CountedStep(counts: EndpointCounts, x: Checks, groups: Attempts, done: set<Key>, k: Key)
    requires Counted(counts, x, groups, done) && k in groups && k !in done
    ensures Counted(AddAttempt(counts, x, groups[k]), x, groups, done + {k})
  {
    hide ValidAttempt, Starts, Finishes, Ended, Original, OwnedParsed, NoDispatch, Chosen;
    OneEnding(x, groups[k]);
    ChosenStep(groups, done, Created(), k);
    ChosenStep(groups, done, Finished(), k);
    ChosenStep(groups, done, EndedIn(x, "returned"), k);
    ChosenStep(groups, done, EndedIn(x, "failed"), k);
    ChosenStep(groups, done, EndedIn(x, "cancelled"), k);
    ChosenStep(groups, done, Undispatched(x), k);
    ChosenStep(groups, done, WithOriginal(x), k);
    ChosenStep(groups, done, WithParsed(x), k);
  }

  lemma NothingCounted(x: Checks, groups: Attempts)
    ensures Counted(EndpointCounts(0, 0, 0, 0, 0, 0, 0, 0), x, groups, {})
  {
  }

  /** The joins of the attempts `done`: nothing else, and all of them. */
  ghost predicate JoinsSound(c: Context, x: Checks, usage: seq<UsageRow>, groups: Attempts, done: set<Key>,
      joins: map<Event, nat>) {
    forall e | e in joins ::
      KeyFor(e) in done && KeyFor(e) in groups && JoinedEndpoint(c, x, usage, groups[KeyFor(e)], e, joins[e])
  }

  ghost predicate JoinsComplete(c: Context, x: Checks, usage: seq<UsageRow>, groups: Attempts, done: set<Key>,
      joins: map<Event, nat>) {
    forall k, e, i | k in done && k in groups && JoinedEndpoint(c, x, usage, groups[k], e, i) :: e in joins
  }

  lemma JoinsStep(c: Context, x: Checks, usage: seq<UsageRow>, groups: Attempts, done: set<Key>,
      joins: map<Event, nat>, k: Key, more: map<Event, nat>)
    requires JoinsSound(c, x, usage, groups, done, joins) && JoinsComplete(c, x, usage, groups, done, joins)
    requires k in groups && k !in done
    requires forall e | e in more :: KeyFor(e) == k && JoinedEndpoint(c, x, usage, groups[k], e, more[e])
    requires forall e, i | JoinedEndpoint(c, x, usage, groups[k], e, i) :: e in more
    ensures JoinsSound(c, x, usage, groups, done + {k}, joins + more)
        && JoinsComplete(c, x, usage, groups, done + {k}, joins + more)
    ensures |joins + more| == |joins| + |more|
  {
    hide JoinedEndpoint, KeyFor;
    assert (joins + more).Keys == joins.Keys + more.Keys && joins.Keys !! more.Keys;
  }

  method MeasureAttempt(c: Context, x: Checks, usage: seq<UsageRow>, group: seq<Event>)
      returns (joined: map<Event, nat>)
    ensures forall e | e in joined :: e in group && JoinedEndpoint(c, x, usage, group, e, joined[e])
    ensures forall e, i | JoinedEndpoint(c, x, usage, group, e, i) :: e in joined
  {
    hide ValidAttempt, Certifies, RowFits;
    joined := map[];
    if ValidAttempt(x, group) {
      var last := LastOf(x, group);
      var found := FindRow(c, Tallies(map[], map[], x.digests, x.calls), usage, last);
      if found.Some? {
        RowInRange(c, x, usage, last, found.value);
        if RowFits(usage[found.value], last) {
          joined := map[last := found.value];
        }
        forall i | Certifies(c, x.digests, x.calls, usage, last, i) ensures i == found.value {
          OneRow(c, x, usage, last, i, found.value);
        }
      }
    }
  }

  function LastOf(x: Checks, group: seq<Event>): (last: Event)
    requires ValidAttempt(x, group)
    ensures Finishes(group) == [last] && last in group && Phase(last, "adapter_attempt_finished")
  {
    assert Finishes(group)[0] in Finishes(group);
    Finishes(group)[0]
  }

  lemma RowInRange(c: Context, x: Checks, usage: seq<UsageRow>, e: Event, i: nat)
    requires Certifies(c, x.digests, x.calls, usage, e, i)
    ensures i < |usage|
  {
  }

  lemma OneRow(c: Context, x: Checks, usage: seq<UsageRow>, e: Event, i: nat, j: nat)
    requires Certifies(c, x.digests, x.calls, usage, e, i) && Certifies(c, x.digests, x.calls, usage, e, j)
    ensures i == j
  {
  }

  // ---------------------------------------------------------------- the whole task

  /** No row certifies two endpoints. */
  lemma EndpointJoinsAreInjective(c: Context, x: Checks, usage: seq<UsageRow>, groups: Attempts, finishes: seq<Event>,
      joins: map<Event, nat>)
    requires Tallied(finishes, DigestKey(), x.digests) && Tallied(finishes, CallKey(), x.calls)
    requires JoinsSound(c, x, usage, groups, groups.Keys, joins)
    requires forall k, e | k in groups && e in Finishes(groups[k]) :: e in finishes
    ensures Injective(joins, usage) && |joins| <= |usage|
  {
    hide ValidAttempt, Certifies, RowFits, Tallied, Finishes;
    forall e | e in joins ensures e in finishes && joins[e] < |usage|
        && Certifies(c, x.digests, x.calls, usage, e, joins[e]) {
      var group := groups[KeyFor(e)];
      assert Finishes(group) == [LastOf(x, group)];
      RowInRange(c, x, usage, e, joins[e]);
    }
    forall a, b | a in joins && b in joins && joins[a] == joins[b] ensures a == b {
      OneResultPerRow(c, finishes, x.digests, x.calls, usage, a, b, joins[a]);
    }
    NoMoreJoinsThanRows(joins, usage);
  }

  /** Every joined endpoint is a returned one with an original or parsed result. */
  lemma JoinedAreReturned(c: Context, x: Checks, usage: seq<UsageRow>, groups: Attempts, joins: map<Event, nat>)
    requires JoinsSound(c, x, usage, groups, groups.Keys, joins)
    ensures |joins| <= |Chosen(groups, groups.Keys, EndedIn(x, "returned"))| <= |groups|
  {
    var returned := Chosen(groups, groups.Keys, EndedIn(x, "returned"));
    hide ValidAttempt, Certifies, Finishes;
    forall e | e in joins ensures KeyFor(e) in returned && Finishes(groups[KeyFor(e)]) == [e] {
      assert Finishes(groups[KeyFor(e)]) == [LastOf(x, groups[KeyFor(e)])];
      RowInRange(c, x, usage, e, joins[e]);
      assert RowFits(usage[joins[e]], e);
    }
    InjectionBounds(joins.Keys, e => KeyFor(e), returned);
    SubsetSize(returned, groups.Keys);
  }

  datatype Issue = InvalidOwnership(seqNo: nat) | ConflictingOwner | JournalFailure(seqNo: nat)
    | UnboundedEndpoint(seqNo: nat) | IncompleteEndpoints(seqNo: nat)

  /** `(first ?? last)!.seq` */
  function FirstSeq(group: seq<Event>): nat {
    if Starts(group) != [] then Starts(group)[0].seqNo else if Finishes(group) != [] then Finishes(group)[0].seqNo
       else 0
  }

  ghost function Incomplete(x: Checks, groups: Attempts, done: set<Key>): set<Issue> {
    set k | k in done && k in groups && !ValidAttempt(x, groups[k]) :: IncompleteEndpoints(FirstSeq(groups[k]))
  }

  lemma IncompleteNext(x: Checks, groups: Attempts, done: set<Key>, k: Key)
    requires k in groups
    ensures Incomplete(x, groups, done + {k})
            == Incomplete(x, groups, done) + if ValidAttempt(x, groups[k]) then {}
                else {IncompleteEndpoints(FirstSeq(groups[k]))}
  {
    hide ValidAttempt, FirstSeq;
  }

  method MeasureGroups(c: Context, x: Checks, usage: seq<UsageRow>, groups: Attempts)
      returns (counts: EndpointCounts, joined: nat, issues: set<Issue>, ghost joins: map<Event, nat>)
    requires forall k, e | k in groups && e in groups[k] :: KeyFor(e) == k
    ensures Counted(counts, x, groups, groups.Keys)
    ensures JoinsSound(c, x, usage, groups, groups.Keys, joins)
        && JoinsComplete(c, x, usage, groups, groups.Keys, joins)
    ensures joined == |joins| && issues == Incomplete(x, groups, groups.Keys)
  {
    hide *;
    counts, joined, issues, joins := EndpointCounts(0, 0, 0, 0, 0, 0, 0, 0), 0, {}, map[];
    var todo := groups.Keys;
    assert groups.Keys - todo == {};
    NothingCounted(x, groups);
    NothingJoined(c, x, usage, groups);
    while todo != {}
      invariant todo <= groups.Keys
      invariant Counted(counts, x, groups, groups.Keys - todo)
      invariant JoinsSound(c, x, usage, groups, groups.Keys - todo, joins)
          && JoinsComplete(c, x, usage, groups, groups.Keys - todo, joins)
      invariant joined == |joins| && issues == Incomplete(x, groups, groups.Keys - todo)
    {
      var k :| k in todo;
      assert groups.Keys - (todo - {k}) == groups.Keys - todo + {k};
      CountedStep(counts, x, groups, groups.Keys - todo, k);
      var more := MeasureAttempt(c, x, usage, groups[k]);
      JoinsStep(c, x, usage, groups, groups.Keys - todo, joins, k, more);
      IncompleteNext(x, groups, groups.Keys - todo, k);
      if !ValidAttempt(x, groups[k]) {
        issues := issues + {IncompleteEndpoints(FirstSeq(groups[k]))};
      } else {
        assert issues + {} == issues;
      }
      counts, joined, joins, todo := AddAttempt(counts, x, groups[k]), joined + |more|, joins + more, todo - {k};
    }
    assert groups.Keys - todo == groups.Keys;
  }

  lemma NothingJoined(c: Context, x: Checks, usage: seq<UsageRow>, groups: Attempts)
    ensures JoinsSound(c, x, usage, groups, {}, map[]) && JoinsComplete(c, x, usage, groups, {}, map[])
        && Incomplete(x, groups, {}) == {}
  {
  }

  lemma GroupsOfEndpoints(endpoints: seq<Event>, groups: Attempts)
    requires Grouped(endpoints, KeyOf(), groups)
    ensures forall k, e | k in groups && e in groups[k] :: KeyFor(e) == k
    ensures forall k, e | k in groups && e in Finishes(groups[k]) :: e in Finishes(endpoints)
  {
    GroupsAre(endpoints, KeyOf(), groups);
    hide KeyFor;
    forall k, e | k in groups && e in groups[k] ensures KeyFor(e) == k {
      assert KeyOf()(e) == Some(k);
    }
  }

  /** What single endpoints are reported for. */
  ghost predicate EndpointReported(c: Context, k: Clock, e: Event, i: Issue) {
    && AdapterPhase(e) && InScope(c, e)
    && if !ProvedEndpoint(c, e) then i == InvalidOwnership(e.seqNo)
       else || (i == JournalFailure(e.seqNo) && e.data.journalFailed != Bool(false))
            || (i == UnboundedEndpoint(e.seqNo) && !k.Bounded(e))
  }

  function EndpointIssues(c: Context, k: Clock, e: Event): (issues: set<Issue>)
    ensures forall i :: i in issues <==> EndpointReported(c, k, e, i)
  {
    if !AdapterPhase(e) || !InScope(c, e) then {}
    else if !ProvedEndpoint(c, e) then {InvalidOwnership(e.seqNo)}
    else (if e.data.journalFailed != Bool(false) then {JournalFailure(e.seqNo)} else {})
         + (if k.Bounded(e) then {} else {UnboundedEndpoint(e.seqNo)})
  }

  /** An endpoint whose own clock or stored time lies after the delivery. */
  function LateEndpoint(c: Context, k: Clock): Event -> bool {
    (e: Event) => EndpointsOf(c)(e) && k.window.end.Some?
                  && ((EventTime(e).Some? && EventTime(e).value > k.window.end.value)
                      || (e.createdAt.Some? && e.createdAt.value > k.window.end.value))
  }

  method CheckEndpoints(c: Context, k: Clock, events: seq<Event>) returns (observed: bool, issues: set<Issue>,
      late: nat)
    ensures observed <==> exists e :: e in events && AdapterPhase(e) && InScope(c, e)
    ensures forall i :: i in issues <==> exists e :: e in events && EndpointReported(c, k, e, i)
    ensures late == Count(events, LateEndpoint(c, k))
  {
    hide EndpointReported, EndpointIssues, LateEndpoint, AdapterPhase, InScope;
    observed, issues, late := false, {}, 0;
    for n := 0 to |events|
      invariant observed <==> exists e :: e in events[..n] && AdapterPhase(e) && InScope(c, e)
      invariant forall i :: i in issues <==> exists e :: e in events[..n] && EndpointReported(c, k, e, i)
      invariant late == Count(events[..n], LateEndpoint(c, k))
    {
      assert events[..n + 1] == events[..n] + [events[n]];
      CountStep(events[..n], LateEndpoint(c, k), events[n]);
      if AdapterPhase(events[n]) && InScope(c, events[n]) {
        observed := true;
      }
      issues := issues + EndpointIssues(c, k, events[n]);
      if LateEndpoint(c, k)(events[n]) {
        late := late + 1;
      }
    }
    assert events[..|events|] == events;
  }

  datatype Status = NotObserved | Partial | ObservedLocalEndpoints

  datatype Endpoints = Endpoints(
    status: Status, counts: EndpointCounts, exactReportedUsageJoins: nat, unknownUsageAttempts: nat,
    afterDeliveryEvents: nat)

  /** What the endpoints as a whole are reported for. */
  ghost predicate Reported(c: Context, k: Clock, events: seq<Event>, x: Checks, groups: Attempts, i: Issue) {
    || (exists e :: e in events && EndpointReported(c, k, e, i))
    || (i == ConflictingOwner && x.conflicting != {})
    || i in Incomplete(x, groups, groups.Keys)
  }

  /** The joined endpoints are exactly those that some row certifies, no row
      certifies two of them, and every attempt is either joined or unknown. */
  method MeasureLocalAdapters(c: Context, k: Clock, events: seq<Event>, usage: seq<UsageRow>)
    returns (m: Endpoints, issues: set<Issue>, ghost x: Checks, ghost groups: Attempts, ghost joins: map<Event, nat>,
        ghost wire: (map<string, nat>, map<string, nat>))
    ensures Grouped(Filter(events, EndpointsOf(c)), KeyOf(), groups)
    ensures x.conflicting == ContestedKeys(Callers(Filter(events, EndpointsOf(c))))
    ensures Tallied(events, DispatchKey(), wire.0) && Tallied(events, SettledKey(), wire.1)
    ensures x.corroborated == Corroboration(k, events, wire.0, wire.1)
    ensures Tallied(Finishes(Filter(events, EndpointsOf(c))), DigestKey(), x.digests)
    ensures Tallied(Finishes(Filter(events, EndpointsOf(c))), CallKey(), x.calls)
    ensures Counted(m.counts, x, groups, groups.Keys)
    ensures JoinsSound(c, x, usage, groups, groups.Keys, joins)
        && JoinsComplete(c, x, usage, groups, groups.Keys, joins)
    ensures Injective(joins, usage) && m.exactReportedUsageJoins == |joins| <= |usage|
    ensures m.exactReportedUsageJoins <= m.counts.returned
    ensures m.exactReportedUsageJoins + m.unknownUsageAttempts == |groups|
    ensures m.status != NotObserved <==> exists e :: e in events && AdapterPhase(e) && InScope(c, e)
    ensures m.status == ObservedLocalEndpoints <==> m.status != NotObserved && issues == {}
    ensures forall i :: i in issues <==> Reported(c, k, events, x, groups, i)
    ensures m.afterDeliveryEvents == Count(events, LateEndpoint(c, k))
  {
    hide *;
    var endpoints := Filter(events, EndpointsOf(c));
    var conflicting := FindConflictingCalls(endpoints);
    var byAttempt := Group(endpoints, KeyOf());
    var finishes := Finishes(endpoints);
    var digests := Tally(finishes, DigestKey());
    var calls := Tally(finishes, CallKey());
    var dispatched := Tally(events, DispatchKey());
    var receipts := Tally(events, SettledKey());
    var checks := Checks(conflicting, digests, calls, Corroboration(k, events, dispatched, receipts));
    x, groups, wire := checks, byAttempt, (dispatched, receipts);
    GroupsOfEndpoints(endpoints, byAttempt);
    var observed, endpointIssues, late := CheckEndpoints(c, k, events);
    var counts, joined, incomplete;
    counts, joined, incomplete, joins := MeasureGroups(c, checks, usage, byAttempt);
    EndpointJoinsAreInjective(c, checks, usage, byAttempt, finishes, joins);
    JoinedAreReturned(c, checks, usage, byAttempt, joins);
    ReturnedCounted(counts, checks, byAttempt);
    issues := endpointIssues + incomplete + if conflicting != {} then {ConflictingOwner} else {};
    forall i {
      ReportedMeans(c, k, events, checks, byAttempt, i);
    }
    m := Endpoints(if !observed then NotObserved else if issues == {} then ObservedLocalEndpoints else Partial,
                   counts, joined, |byAttempt| - joined, late);
  }

  lemma ReportedMeans(c: Context, k: Clock, events: seq<Event>, x: Checks, groups: Attempts, i: Issue)
    ensures Reported(c, k, events, x, groups, i)
            <==> || (exists e ::
                       e in events && EndpointReported(c, k, e, i))
                 || (i == ConflictingOwner && x.conflicting != {})
                 || i in Incomplete(x, groups, groups.Keys)
  {
    hide EndpointReported, Incomplete;
  }

  lemma ReturnedCounted(counts: EndpointCounts, x: Checks, groups: Attempts)
    requires Counted(counts, x, groups, groups.Keys)
    ensures counts.returned == |Chosen(groups, groups.Keys, EndedIn(x, "returned"))|
  {
  }

  lemma AttemptKinds(x: Checks, group: seq<Event>)
    ensures ValidAttempt(x, group)
            <==> Ended(x, "returned", group) || Ended(x, "failed", group) || Ended(x, "cancelled", group)
    ensures !(Ended(x, "returned", group) && Ended(x, "failed", group))
    ensures !(Ended(x, "cancelled", group) && (Ended(x, "returned", group) || Ended(x, "failed", group)))
    ensures Original(x, group) || OwnedParsed(x, group) ==> ValidAttempt(x, group)
    ensures !(Original(x, group) && OwnedParsed(x, group))
    ensures ValidAttempt(x, group) ==> |Starts(group)| == 1 && |Finishes(group)| == 1
  {
    assert "returned"[0] == 'r' && "failed"[0] == 'f' && "cancelled"[0] == 'c';
    assert "original_sdk_response"[1] == 'r' && "owned_systemone_parser"[1] == 'w';
  }

  /** Every valid attempt ended in exactly one way, and has at most one kind of result. */
  lemma EndpointsAddUp(counts: EndpointCounts, x: Checks, groups: Attempts)
    requires Counted(counts, x, groups, groups.Keys)
    ensures counts.returned + counts.failed + counts.cancelled
            == |Chosen(groups, groups.Keys, (g: seq<Event>) => ValidAttempt(x, g))|
    ensures counts.originals + counts.parsed <= counts.returned + counts.failed + counts.cancelled
            <= counts.created <= |groups|
    ensures counts.returned + counts.failed + counts.cancelled <= counts.terminals <= |groups|
  {
    var valid, kinds := (g: seq<Event>) => ValidAttempt(x, g), (g: seq<Event>) => Original(x, g) || OwnedParsed(x, g);
    var others := (g: seq<Event>) => Ended(x, "failed", g) || Ended(x, "cancelled", g);
    forall k | k in groups {
      AttemptKinds(x, groups[k]);
    }
    hide ValidAttempt, Ended, Original, OwnedParsed, Starts, Finishes, Chosen;
    ChosenSplit(groups, valid, EndedIn(x, "returned"), others);
    ChosenSplit(groups, others, EndedIn(x, "failed"), EndedIn(x, "cancelled"));
    ChosenSplit(groups, kinds, WithOriginal(x), WithParsed(x));
    ChosenBounds(groups, kinds, valid);
    ChosenBounds(groups, valid, Created());
    ChosenBounds(groups, valid, Finished());
  }

  // ---------------------------------------------------------------- wire dispatches

  lemma ValidIsBacked(k: Clock, events: seq<Event>, x: Checks, dispatched: map<string, nat>, receipts: map<string, nat>,
      group: seq<Event>)
    requires x.corroborated == Corroboration(k, events, dispatched, receipts) && ValidAttempt(x, group)
    ensures Backed(k, events, dispatched, receipts, Starts(group)[0], Finishes(group)[0])
    ensures Listed(k, events, dispatched, Finishes(group)[0])
  {
    hide Listed, Starts, Finishes;
  }

  /** A valid attempt lists exactly the dispatches of its call and attempt, each
      once. */
  lemma ValidListsDispatches(k: Clock, events: seq<Event>, x: Checks, dispatched: map<string, nat>,
      receipts: map<string, nat>,
      group: seq<Event>, id: Value)
    requires x.corroborated == Corroboration(k, events, dispatched, receipts) && ValidAttempt(x, group)
    ensures var last := Finishes(group)[0];
            id in last.data.dispatchIds.GetOr([]) <==> exists d ::
                                                         d in Dispatches(events, last) && d.data.dispatchId == id
  {
    ValidIsBacked(k, events, x, dispatched, receipts, group);
    hide ValidAttempt, Corroboration, Backed, DispatchEnds, Dispatches, Starts, Finishes, Exact, CountOf, Filter;
    var last := Finishes(group)[0];
    SameIds(last.data.dispatchIds.GetOr([]), Dispatches(events, last), id);
  }

  lemma SameIds(ids: seq<Value>, dispatches: seq<Event>, id: Value)
    requires |ids| == |dispatches| && forall i | 0 <= i < |ids| :: ids[i] == dispatches[i].data.dispatchId
    ensures id in ids <==> exists d :: d in dispatches && d.data.dispatchId == id
  {
    if id in ids {
      var i :| 0 <= i < |ids| && ids[i] == id;
      assert dispatches[i] in dispatches;
    }
    if d :| d in dispatches && d.data.dispatchId == id {
      var i :| 0 <= i < |dispatches| && dispatches[i] == d;
      assert ids[i] == id;
    }
  }

  /** No wire dispatch backs two attempts: an identity that two valid attempts
      list would have started twice, or once with both keys. */
  lemma DispatchesAreApart(k: Clock, events: seq<Event>, x: Checks, dispatched: map<string, nat>,
      receipts: map<string, nat>,
      a: seq<Event>, b: seq<Event>, id: Value)
    requires Tallied(events, DispatchKey(), dispatched)
             && x.corroborated == Corroboration(k, events, dispatched, receipts)
    requires ValidAttempt(x, a) && ValidAttempt(x, b)
    requires id in Finishes(a)[0].data.dispatchIds.GetOr([]) && id in Finishes(b)[0].data.dispatchIds.GetOr([])
    ensures KeyFor(Finishes(a)[0]) == KeyFor(Finishes(b)[0])
  {
    var d := DispatchOf(k, events, x, dispatched, receipts, a, id);
    var e := DispatchOf(k, events, x, dispatched, receipts, b, id);
    hide ValidAttempt, Finishes, Corroboration, DispatchKey, RawKey;
    assert CountOf(dispatched, id.s) == |Members(events, DispatchKey(), id.s)|;
    CountedOnce(events, DispatchKey(), id.s, d, e);
    SameRawKey(Finishes(a)[0], Finishes(b)[0]);
  }

  lemma SameRawKey(a: Event, b: Event)
    requires RawKey(a) == RawKey(b)
    ensures KeyFor(a) == KeyFor(b)
  {
  }

  /** The event that started a listed dispatch. */
  lemma DispatchOf(k: Clock, events: seq<Event>, x: Checks, dispatched: map<string, nat>, receipts: map<string, nat>,
      group: seq<Event>, id: Value) returns (d: Event)
    requires x.corroborated == Corroboration(k, events, dispatched, receipts) && ValidAttempt(x, group)
    requires id in Finishes(group)[0].data.dispatchIds.GetOr([])
    ensures id.Str? && d in events && DispatchKey()(d) == Some(id.s) && CountOf(dispatched, id.s) == 1
    ensures RawKey(d) == RawKey(Finishes(group)[0])
  {
    ValidIsBacked(k, events, x, dispatched, receipts, group);
    var last := Finishes(group)[0];
    var ids, dispatches := last.data.dispatchIds.GetOr([]), Dispatches(events, last);
    var i :| 0 <= i < |ids| && ids[i] == id;
    d := dispatches[i];
    assert d in dispatches;
    assert WireFits(k, Starts(group)[0], last, d);
    hide ValidAttempt, Corroboration, DispatchEnds, ResultAgrees, Clock.Bounded, Starts, Finishes;
  }
}
