/** The physical writer attempts of the approval-projection journal: one record
    for each call and attempt, and whether it proves an original response
    (scripts/lib/accepted-task-approval-projection-participants.ts,
    projectApprovalProjectionPhysicalAttempts). */
module PhysicalAttempts {
  import opened Groups
  import opened Identifiers
  import opened Json
  import Projection = ProjectionUsage

  datatype Data = Data(
    modelCallId: Value, physicalAttempt: Value, purpose: Value, phase: Value, journalFailed: Value, outcome: Value,
    resultScope: Value,
    hostResultReceiptId: Value, providerResponseIdDigest: Value, responseOutputDigest: Value,
    dispatchId: Value, dispatchIds: Option<seq<Value>>, clock: Value, at: Value)

  /** A journal row; `parentless` rows carry no session, workflow, tool or source. */
  datatype Event = Event(actor: string, modelCallId: Value, parentless: bool, journalIndex: int, data: Data)

  type Key = (string, nat)

  /** A letter or digit, then at most 255 of letters, digits, `.`, `_`, `:`, `#` and `-`. */
  predicate Identity(v: Value) {
    && v.Str? && 0 < |v.s| <= 256 && IsWordChar(v.s[0])
    && forall c | c in v.s :: IsWordChar(c) || c in "._:#-"
  }

  predicate Hash(v: Value) {
    v.Str? && Digest(v.s)
  }

  predicate Observed(e: Event) {
    e.actor == "model-transport-observation"
  }

  /** The attempt that an observation belongs to, when its ownership is proved. */
  function KeyOf(): Event -> Option<Key> {
    (e: Event) =>
      var attempt := e.data.physicalAttempt.PositiveSeq();
      if Observed(e) && Identity(e.data.modelCallId) && e.modelCallId == e.data.modelCallId && attempt.Some?
         && e.data.purpose == Str("writer") && e.parentless
      then Some((e.data.modelCallId.s, attempt.value)) else None
  }

  function InPhase(rows: seq<Event>, phase: string): (r: seq<Event>)
    ensures forall e :: e in r <==> e in rows && e.data.phase == Str(phase)
  {
    if rows == [] then []
    else InPhase(rows[..|rows| - 1], phase) + if rows[|rows| - 1].data.phase == Str(phase) then [rows[|rows| - 1]]
        else []
  }

  predicate AllDifferent(ids: seq<Value>) {
    forall i, j | 0 <= i < j < |ids| :: ids[i] != ids[j]
  }

  function DispatchIds(rows: seq<Event>): seq<Value> {
    var dispatches := InPhase(rows, "dispatch_started");
    seq(|dispatches|, i requires 0 <= i < |dispatches| => dispatches[i].data.dispatchId)
  }

  /** One start, one result and one end, in this order, with the dispatches
      between start and result; the result lists exactly the observed dispatches. */
  predicate Exact(rows: seq<Event>) {
    var starts, ends := InPhase(rows, "adapter_attempt_created"), InPhase(rows, "adapter_attempt_finished");
    var completed, dispatches := InPhase(rows, "model_result_completed"), InPhase(rows, "dispatch_started");
    && |starts| == |ends| == |completed| == 1
    && var result, ids, observed := completed[0].data, completed[0].data.dispatchIds.GetOr([]), DispatchIds(rows);
    && (forall e | e in rows :: e.data.journalFailed == Bool(false)) && ends[0].data.outcome == Str("returned")
    && result.resultScope == Str("original_sdk_response") && Identity(result.hostResultReceiptId)
    && Hash(result.providerResponseIdDigest)
    && |ids| > 0 && (forall id | id in ids :: Identity(id)) && AllDifferent(ids)
    && |observed| == |ids| && (forall id | id in observed :: Identity(id)) && AllDifferent(observed)
    && (forall id | id in ids :: id in observed)
    && (forall d | d in dispatches :: starts[0].journalIndex < d.journalIndex < completed[0].journalIndex)
    && starts[0].journalIndex < completed[0].journalIndex < ends[0].journalIndex
    && ends[0].data.resultScope == Str("original_sdk_response")
    && ends[0].data.providerResponseIdDigest == result.providerResponseIdDigest
  }

  lemma {:induction false} DifferentIds(ids: seq<Value>)
    requires AllDifferent(ids)
    ensures |set id | id in ids| == |ids|
  {
    if ids != [] {
      var init, last := ids[..|ids| - 1], ids[|ids| - 1];
      DifferentIds(init);
      assert ids == init + [last];
      assert (set id | id in ids) == (set id | id in init) + {last};
    }
  }

  lemma SameIds(ids: seq<Value>, observed: seq<Value>)
    requires AllDifferent(ids) && AllDifferent(observed) && |ids| == |observed|
    requires forall id | id in ids :: id in observed
    ensures forall id :: id in ids <==> id in observed
  {
    DifferentIds(ids);
    DifferentIds(observed);
    var listed, seen := set id | id in ids, set id | id in observed;
    assert seen == listed + (seen - listed);
    forall id | id in observed ensures id in ids {
      assert id in seen && |seen - listed| == 0;
    }
  }

  /** In an exact attempt the listed and the observed dispatches correspond one
      to one: the checks name only one direction and the counts. */
  lemma ExactDispatchesCorrespond(rows: seq<Event>)
    requires Exact(rows)
    ensures var ids := InPhase(rows, "model_result_completed")[0].data.dispatchIds.GetOr([]);
            && (forall id :: id in ids <==> id in DispatchIds(rows))
            && AllDifferent(DispatchIds(rows)) && |DispatchIds(rows)| == |ids| > 0
  {
    SameIds(InPhase(rows, "model_result_completed")[0].data.dispatchIds.GetOr([]), DispatchIds(rows));
    hide InPhase, Identity, Hash, DispatchIds, AllDifferent;
  }

  // ---------------------------------------------------------------- the projected attempts

  datatype Attempt = Attempt(key: Key, outcome: Projection.Outcome, dispatches: nat, late: Option<bool>,
      original: Option<Projection.OriginalResponse>)
  {
    function Evidence(): Projection.ModelAttempt {
      Projection.ModelAttempt(key.0, key.1 as real, outcome, original)
    }
  }

  function TimeOf(e: Event): Option<int> {
    if e.data.clock == Str("host_epoch_ms") && e.data.at.Count() then Some(e.data.at.x.Floor) else None
  }

  /** Whether some event is known to be later than the job's end: unknown when
      the end or some clock is unreadable and no readable clock is late. */
  function Late(rows: seq<Event>, finishedAt: Option<int>): Option<bool> {
    if finishedAt.None? then None
    else if exists e :: e in rows && TimeOf(e).Some? && TimeOf(e).value > finishedAt.value then Some(true)
    else if forall e | e in rows :: TimeOf(e).Some? then Some(false)
    else None
  }

  function OutcomeOf(rows: seq<Event>): Projection.Outcome {
    var ends := InPhase(rows, "adapter_attempt_finished");
    if |ends| != 1 then Projection.Unfinished
    else if Exact(rows) then Projection.Returned
    else if ends[0].data.outcome in {Str("failed"), Str("cancelled")} then Projection.Failed
    else Projection.Unknown
  }

  function OriginalOf(rows: seq<Event>): Option<Projection.OriginalResponse> {
    if Exact(rows) then
      var result := InPhase(rows, "model_result_completed")[0].data;
      Some(Projection.OriginalResponse(TextOf(result.hostResultReceiptId), TextOf(result.providerResponseIdDigest),
                                       if Hash(result.responseOutputDigest) then Some(result.responseOutputDigest.s)
                                          else None))
    else None
  }

  ghost predicate Describes(a: Attempt, rows: seq<Event>, finishedAt: Option<int>) {
    && a.outcome == OutcomeOf(rows) && a.original == OriginalOf(rows) && a.late == Late(rows, finishedAt)
    && a.dispatches == |InPhase(rows, "dispatch_started")|
  }

  function Describe(k: Key, rows: seq<Event>, finishedAt: Option<int>): (a: Attempt)
    ensures a.key == k && Describes(a, rows, finishedAt)
  {
    Attempt(k, OutcomeOf(rows), |InPhase(rows, "dispatch_started")|, Late(rows, finishedAt), OriginalOf(rows))
  }

  /** The records of the attempts `done`: one for each, and no others. */
  ghost predicate Projected(groups: map<Key, seq<Event>>, done: set<Key>, attempts: seq<Attempt>,
      finishedAt: Option<int>) {
    && (forall a | a in attempts :: a.key in done && a.key in groups && Describes(a, groups[a.key], finishedAt))
    && (forall k | k in done && k in groups :: exists a :: a in attempts && a.key == k)
    && (forall i, j | 0 <= i < j < |attempts| :: attempts[i].key != attempts[j].key)
  }

  lemma ProjectedStep(groups: map<Key, seq<Event>>, done: set<Key>, attempts: seq<Attempt>, finishedAt: Option<int>,
      a: Attempt)
    requires Projected(groups, done, attempts, finishedAt)
    requires a.key in groups && a.key !in done && Describes(a, groups[a.key], finishedAt)
    ensures Projected(groups, done + {a.key}, attempts + [a], finishedAt)
  {
    hide Describes;
    var next := attempts + [a];
    assert a in next && forall b | b in attempts :: b in next;
  }

  lemma MembersOfGroups(events: seq<Event>, groups: map<Key, seq<Event>>)
    requires Grouped(events, KeyOf(), groups)
    ensures forall k | k in groups :: groups[k] == Members(events, KeyOf(), k) && groups[k] != []
    ensures forall e | e in events && KeyOf()(e).Some? :: KeyOf()(e).value in groups
  {
    hide KeyOf;
    GroupsAre(events, KeyOf(), groups);
    forall k | k in groups ensures groups[k] == Members(events, KeyOf(), k) {
      assert GroupOf(groups, k) == Members(events, KeyOf(), k);
    }
  }

  datatype Issue = InvalidOwner | ResponseUnproved | LateWindowUnavailable

  /** One record for each attempt that some owned observation names, and no two
      records of the same attempt. `finishedAt` is the job's end when it is a
      non-negative safe integer. */
  method ProjectPhysicalAttempts(events: seq<Event>, finishedAt: Option<int>)
      returns (attempts: seq<Attempt>, issues: set<Issue>)
    ensures forall a | a in attempts ::
              Members(events, KeyOf(), a.key) != [] && Describes(a, Members(events, KeyOf(), a.key), finishedAt)
    ensures forall e | e in events && KeyOf()(e).Some? :: exists a :: a in attempts && a.key == KeyOf()(e).value
    ensures forall i, j | 0 <= i < j < |attempts| :: attempts[i].key != attempts[j].key
    ensures InvalidOwner in issues <==> exists e :: e in events && Observed(e) && KeyOf()(e).None?
    ensures ResponseUnproved in issues <==> exists a :: a in attempts && a.original.None?
    ensures LateWindowUnavailable in issues
            <==> attempts != [] && (finishedAt.None? || exists e :: e in events && KeyOf()(e).Some? && TimeOf(e).None?)
  {
    hide Describe, Describes, KeyOf, Projected, Grouped, Members, Observed, TimeOf;
    issues := CheckOwners(events);
    var groups := Group(events, KeyOf());
    MembersOfGroups(events, groups);
    attempts := [];
    var todo := groups.Keys;
    assert groups.Keys - todo == {};
    NothingProjected(groups, finishedAt);
    while todo != {}
      invariant todo <= groups.Keys
      invariant Projected(groups, groups.Keys - todo, attempts, finishedAt)
      invariant InvalidOwner in issues <==> exists e :: e in events && Observed(e) && KeyOf()(e).None?
      invariant ResponseUnproved in issues <==> exists a :: a in attempts && a.original.None?
      invariant LateWindowUnavailable in issues
                <==> exists k :: k in groups.Keys - todo && !Comparable(groups[k], finishedAt)
    {
      var k :| k in todo;
      var a := Describe(k, groups[k], finishedAt);
      ProjectedStep(groups, groups.Keys - todo, attempts, finishedAt, a);
      assert groups.Keys - (todo - {k}) == groups.Keys - todo + {k};
      issues := issues + (if a.original.None? then {ResponseUnproved} else {})
                + (if Comparable(groups[k], finishedAt) then {} else {LateWindowUnavailable});
      attempts, todo := attempts + [a], todo - {k};
    }
    assert groups.Keys - todo == groups.Keys;
    ProjectedAll(groups, attempts, finishedAt);
    AllComparable(events, groups, finishedAt);
    if attempts != [] {
      assert attempts[0] in attempts;
    } else {
      assert forall k :: k !in groups;
    }
  }

  /** The job's end and all clocks of the attempt can be compared. */
  predicate Comparable(rows: seq<Event>, finishedAt: Option<int>) {
    finishedAt.Some? && forall e | e in rows :: TimeOf(e).Some?
  }

  method CheckOwners(events: seq<Event>) returns (issues: set<Issue>)
    ensures issues <= {InvalidOwner}
    ensures issues != {} <==> exists e :: e in events && Observed(e) && KeyOf()(e).None?
  {
    hide KeyOf, Observed;
    issues := {};
    for n := 0 to |events|
      invariant issues <= {InvalidOwner}
      invariant issues != {} <==> exists e :: e in events[..n] && Observed(e) && KeyOf()(e).None?
    {
      assert events[..n + 1] == events[..n] + [events[n]];
      if Observed(events[n]) && KeyOf()(events[n]).None? {
        issues := issues + {InvalidOwner};
      }
    }
    assert events[..|events|] == events;
  }

  lemma AllComparable(events: seq<Event>, groups: map<Key, seq<Event>>, finishedAt: Option<int>)
    requires Grouped(events, KeyOf(), groups)
    ensures (exists k :: k in groups && !Comparable(groups[k], finishedAt))
            <==> groups != map[] && (finishedAt.None? || exists e :: e in events && KeyOf()(e).Some? && TimeOf(e).None?)
  {
    GroupsAre(events, KeyOf(), groups);
    hide KeyOf, TimeOf, Grouped;
    if e :| e in events && KeyOf()(e).Some? && TimeOf(e).None? {
      assert !Comparable(groups[KeyOf()(e).value], finishedAt);
    }
    if finishedAt.None? && groups != map[] {
      var k :| k in groups;
      assert !Comparable(groups[k], finishedAt);
    }
  }

  lemma NothingProjected(groups: map<Key, seq<Event>>, finishedAt: Option<int>)
    ensures Projected(groups, {}, [], finishedAt)
  {
  }

  lemma ProjectedAll(groups: map<Key, seq<Event>>, attempts: seq<Attempt>, finishedAt: Option<int>)
    requires Projected(groups, groups.Keys, attempts, finishedAt)
    ensures forall a | a in attempts :: a.key in groups && Describes(a, groups[a.key], finishedAt)
    ensures forall k | k in groups :: exists a :: a in attempts && a.key == k
    ensures forall i, j | 0 <= i < j < |attempts| :: attempts[i].key != attempts[j].key
  {
  }

  /** What the usage selection receives: no two attempts of a job share a key, so
      none of them is refused as a repetition. */
  lemma EvidenceDoesNotRepeat(attempts: seq<Attempt>, i: nat, j: nat)
    requires forall m, n | 0 <= m < n < |attempts| :: attempts[m].key != attempts[n].key
    requires i < |attempts| && j < |attempts| && i != j
    ensures !Projection.SameAttempt(attempts[i].Evidence(), attempts[j].Evidence())
  {
  }
}
