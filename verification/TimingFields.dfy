/** What the reported timing sums add up (scripts/session-comparison.ts,
    measureModelTiming): each is the plain sum of one journal field, over the
    host closes of the counted steps or the first closes of their counted calls. */
module TimingFields {
  import opened Groups
  import opened Identifiers
  import opened Json
  import opened Listings
  import opened ModelTiming
  import opened TimingSums

  // ---------------------------------------------------------------- what the sums range over

  /** A step and one of its calls. */
  type StepCall = (string, string)

  /** The counted calls of the counted steps. */
  ghost function CountedCalls(c: Context, owners: map<string, nat>, requests: map<RequestKey, int>,
      steps: Steps): set<StepCall>
    requires Owners(c, owners)
  {
    set k, row | k in steps && row in steps[k] && CallKey()(row).Some?
                 && CountsCall(c, owners, requests, steps, k, CallKey()(row).value) :: (k, CallKey()(row).value)
  }

  ghost predicate CountsCall(c: Context, owners: map<string, nat>, requests: map<RequestKey, int>, steps: Steps,
      k: string, id: string)
    requires Owners(c, owners) && k in steps
  {
    && CountableStep(c, owners, requests, steps, k)
    && var host := HostCloses(steps[k])[0];
       Countable(c, requests, steps, RowKey(c, host).0, host, id, Members(steps[k], CallKey(), id))
  }

  /** The first row that satisfies `p`. */
  ghost function First(rows: seq<Event>, p: Event -> bool): Option<Event> {
    if rows == [] then None
    else
      var before, last := First(rows[..|rows| - 1], p), rows[|rows| - 1];
      if before.Some? || !p(last) then before else Some(last)
  }

  ghost function ClosesStep(): Event -> bool {
    (e: Event) => e.data.phase == Str("host_step_finished")
  }

  ghost function ClosesCall(id: string): Event -> bool {
    (e: Event) => e.data.phase == Str("call_finished") && e.data.callId == Str(id)
  }

  ghost function Amount(v: Value): real {
    if v.Num? then v.x else 0.0
  }

  /** An amount in the first host close of a step, and in the first close of a call. */
  ghost function OfHost(steps: Steps, amount: Data -> real): string -> real {
    k => if k in steps && First(steps[k], ClosesStep()).Some? then amount(First(steps[k], ClosesStep()).value.data)
         else 0.0
  }

  ghost function OfCall(steps: Steps, amount: Data -> real): StepCall -> real {
    (p: StepCall) =>
      if p.0 in steps && First(steps[p.0], ClosesCall(p.1)).Some?
      then amount(First(steps[p.0], ClosesCall(p.1)).value.data)
      else 0.0
  }

  ghost predicate CallSays(steps: Steps, p: StepCall, says: Data -> bool) {
    p.0 in steps && First(steps[p.0], ClosesCall(p.1)).Some? && says(First(steps[p.0], ClosesCall(p.1)).value.data)
  }

  // ---------------------------------------------------------------- first closes

  lemma {:induction false} FirstIsClosing(rows: seq<Event>, id: string)
    requires NonBlank(Str(id))
    ensures var closing := Closings(Members(rows, CallKey(), id));
            First(rows, ClosesCall(id)) == if closing == [] then None else Some(closing[0])
  {
    if rows != [] {
      var init, last := rows[..|rows| - 1], rows[|rows| - 1];
      FirstIsClosing(init, id);
      ClosingsOfBoth(Members(init, CallKey(), id), [last]);
      assert Members(init, CallKey(), id) + [] == Members(init, CallKey(), id);
    }
  }

  lemma ClosingsFirst(x: Event, rows: seq<Event>)
    ensures Closings([x] + rows) == (if x.data.phase == Str("call_finished") then [x] else []) + Closings(rows)
  {
    assert ([x] + rows)[1..] == rows;
  }

  lemma {:induction false} ClosingsOfBoth(a: seq<Event>, b: seq<Event>)
    ensures Closings(a + b) == Closings(a) + Closings(b)
  {
    if a == [] {
      assert a + b == b;
    } else {
      var first, rest := a[0], a[1..];
      assert a == [first] + rest && a + b == [first] + (rest + b);
      ClosingsOfBoth(rest, b);
      ClosingsFirst(first, rest);
      ClosingsFirst(first, rest + b);
      hide Closings;
    }
  }

  lemma {:induction false} FirstIsHostClose(rows: seq<Event>)
    ensures First(rows, ClosesStep()) == if HostCloses(rows) == [] then None else Some(HostCloses(rows)[0])
  {
    if rows != [] {
      var init, last := rows[..|rows| - 1], rows[|rows| - 1];
      FirstIsHostClose(init);
      HostClosesOfBoth(init, [last]);
      assert init + [last] == rows;
    }
  }

  lemma HostClosesFirst(x: Event, rows: seq<Event>)
    ensures HostCloses([x] + rows) == (if HostClose(x) then [x] else []) + HostCloses(rows)
  {
    assert ([x] + rows)[1..] == rows;
  }

  lemma {:induction false} HostClosesOfBoth(a: seq<Event>, b: seq<Event>)
    ensures HostCloses(a + b) == HostCloses(a) + HostCloses(b)
  {
    if a == [] {
      assert a + b == b;
    } else {
      var first, rest := a[0], a[1..];
      assert a == [first] + rest && a + b == [first] + (rest + b);
      HostClosesOfBoth(rest, b);
      HostClosesFirst(first, rest);
      HostClosesFirst(first, rest + b);
      hide HostCloses;
    }
  }

  // ---------------------------------------------------------------- one total

  /** The total `f` grows by `amount` of the close of each counted call, and by
      nothing else. */
  ghost predicate Grows(f: Totals -> real, amount: Data -> real) {
    && f(NO_TOTALS) == 0.0
    && (forall t: Totals, ms :: f(t.AddHost(ms)) == f(t))
    && (forall t: Totals, n: nat :: f(t.(stepsWithCalls := n)) == f(t))
    && forall t: Totals, key, d: Data | d.attemptCount.Count() && d.failedAttemptCount.Count() ::
         f(t.AddCall(TotalOf(key, d))) == f(t) + amount(d)
  }

  ghost function PairsOf(k: string, order: seq<string>): seq<StepCall> {
    seq(|order|, i requires 0 <= i < |order| => (k, order[i]))
  }

  /** The counted calls of one step add their own amounts. */
  lemma {:induction false} CallsGrow(c: Context, requests: map<RequestKey, int>, steps: Steps, step: Step, t: Totals,
      order: seq<string>, calls: seq<CallTotal>, f: Totals -> real, amount: Data -> real)
    requires step.Sound(c, requests, steps) && Grows(f, amount) && |order| == |calls|
    requires forall i | 0 <= i < |order| ::
               order[i] in step.counted
               && calls[i] == TotalFor(c, RowKey(c, step.host).0, step.host, step.byCall[order[i]])
    ensures f(AddCalls(t, calls)) == f(t) + Sum(PairsOf(step.id, order), OfCall(steps, amount))
  {
    hide Step.Sound, Grows, OfCall, TotalFor;
    if calls != [] {
      var n := |calls| - 1;
      CallsGrow(c, requests, steps, step, t, order[..n], calls[..n], f, amount);
      CallGrows(c, requests, steps, step, AddCalls(t, calls[..n]), order[n], f, amount);
      assert PairsOf(step.id, order)[..n] == PairsOf(step.id, order[..n]);
    }
  }

  lemma CallGrows(c: Context, requests: map<RequestKey, int>, steps: Steps, step: Step, t: Totals, id: string,
      f: Totals -> real, amount: Data -> real)
    requires step.Sound(c, requests, steps) && Grows(f, amount) && id in step.counted
    ensures f(t.AddCall(TotalFor(c, RowKey(c, step.host).0, step.host, step.byCall[id])))
            == f(t) + OfCall(steps, amount)((step.id, id))
  {
    CountedIsCalled(c, requests, steps, step, id);
    FirstIsClosing(steps[step.id], id);
    hide Step.Sound, Closings, First;
  }

  lemma CountedIsCalled(c: Context, requests: map<RequestKey, int>, steps: Steps, step: Step, id: string)
    requires step.Sound(c, requests, steps) && id in step.counted
    ensures id in step.byCall && step.byCall[id] == Members(steps[step.id], CallKey(), id) && NonBlank(Str(id))
    ensures Closings(step.byCall[id]) != []
    ensures var d := Closings(step.byCall[id])[0].data; d.attemptCount.Count() && d.failedAttemptCount.Count()
  {
    hide Totalled, CallSound, Members, Grouped;
    CallGroups(steps[step.id], step.byCall);
  }

  // ---------------------------------------------------------------- all steps

  ghost function CallsOf(trail: seq<Step>): set<StepCall> {
    set step, id | step in trail && id in step.counted :: (step.id, id)
  }

  lemma PairsList(k: string, order: seq<string>, ids: set<string>)
    requires Lists(order, ids)
    ensures Lists(PairsOf(k, order), set id | id in ids :: (k, id))
  {
    var pairs := PairsOf(k, order);
    forall p ensures p in pairs <==> p.0 == k && p.1 in ids {
      if p in pairs {
        var i :| 0 <= i < |pairs| && pairs[i] == p;
        assert order[i] in order;
      }
      if p.0 == k && p.1 in ids {
        var i :| 0 <= i < |order| && order[i] == p.1;
        assert pairs[i] == p;
      }
    }
  }

  lemma {:induction false} StepsGrow(c: Context, requests: map<RequestKey, int>, steps: Steps, trail: seq<Step>,
      f: Totals -> real, amount: Data -> real)
    returns (pairs: seq<StepCall>)
    requires Grows(f, amount) && Distinct(trail) && forall step | step in trail :: step.Sound(c, requests, steps)
    ensures Lists(pairs, CallsOf(trail)) && f(AddSteps(trail)) == Sum(pairs, OfCall(steps, amount))
  {
    if trail == [] {
      pairs := [];
    } else {
      var init, last := trail[..|trail| - 1], trail[|trail| - 1];
      var before := StepsGrow(c, requests, steps, init, f, amount);
      var more := StepGrows(c, requests, steps, last, AddSteps(init), f, amount);
      pairs := before + more;
      SumOfBoth(before, more, OfCall(steps, amount));
      var own := set id | id in last.counted :: (last.id, id);
      assert trail == init + [last];
      assert CallsOf(trail) == CallsOf(init) + own;
      assert CallsOf(init) !! own;
      ListsBoth(before, more, CallsOf(init), own);
    }
  }

  lemma StepGrows(c: Context, requests: map<RequestKey, int>, steps: Steps, step: Step, t: Totals, f: Totals -> real,
      amount: Data -> real)
    returns (pairs: seq<StepCall>)
    requires step.Sound(c, requests, steps) && Grows(f, amount)
    ensures Lists(pairs, set id | id in step.counted :: (step.id, id))
    ensures f(AddStep(t, step)) == f(t) + Sum(pairs, OfCall(steps, amount))
  {
    var source, ms := RowKey(c, step.host).0, NumberOf(step.host.data.durationMs);
    var order :| Totalled(c, source, step.host, step.byCall, step.counted, order, step.calls);
    pairs := PairsOf(step.id, order);
    PairsList(step.id, order, step.counted);
    CallsGrow(c, requests, steps, step, t.AddHost(ms), order, step.calls, f, amount);
    hide Step.Sound, AddCalls, TotalFor;
  }

  lemma {:induction false} HostsAddUp(c: Context, owners: map<string, nat>, requests: map<RequestKey, int>,
      steps: Steps, trail: seq<Step>)
    requires forall step | step in trail :: OwnStep(c, owners, requests, steps, step)
    ensures AddSteps(trail).hostMs == Sum(Ids(trail), OfHost(steps, (d: Data) => Amount(d.durationMs)))
  {
    if trail != [] {
      var init, last := trail[..|trail| - 1], trail[|trail| - 1];
      HostsAddUp(c, owners, requests, steps, init);
      assert trail == init + [last];
      assert Ids(trail)[..|init|] == Ids(init);
      assert OwnStep(c, owners, requests, steps, last);
      FirstIsHostClose(steps[last.id]);
      AddStepIsPlus(AddSteps(init), last);
      AddCallsIsPlus(NO_TOTALS.AddHost(NumberOf(last.host.data.durationMs)), last.calls);
      CallsLeaveHosts(last.calls);
    }
  }

  lemma {:induction false} CallsLeaveHosts(calls: seq<CallTotal>)
    ensures AddCalls(NO_TOTALS, calls).hostMs == 0.0
  {
    if calls != [] {
      CallsLeaveHosts(calls[..|calls| - 1]);
    }
  }

  // ---------------------------------------------------------------- the reported sums

  lemma CallsAreCounted(c: Context, owners: map<string, nat>, requests: map<RequestKey, int>, steps: Steps,
      trail: seq<Step>)
    requires Audited(c, owners, requests, steps, steps.Keys, trail)
    ensures CallsOf(trail) == CountedCalls(c, owners, requests, steps)
  {
    hide CountableStep, Countable, CallSound, Totalled, HostCloses, CallKey, KeysOf;
    forall p ensures p in CallsOf(trail) <==> p in CountedCalls(c, owners, requests, steps) {
      if p in CallsOf(trail) {
        var step :| step in trail && step.id == p.0 && p.1 in step.counted;
        StepCounts(c, owners, requests, steps, step, p.1);
      }
      if p in CountedCalls(c, owners, requests, steps) {
        var step :| step in trail && step.id == p.0;
        StepCounts(c, owners, requests, steps, step, p.1);
      }
    }
  }

  lemma StepCounts(c: Context, owners: map<string, nat>, requests: map<RequestKey, int>, steps: Steps, step: Step,
      id: string)
    requires step.Sound(c, requests, steps) && OwnStep(c, owners, requests, steps, step)
    ensures id in step.counted
            <==> CalledIn(steps[step.id], id) && CountsCall(c, owners, requests, steps, step.id, id)
  {
    CalledGroups(steps[step.id], step.byCall);
    hide CountableStep, Countable, CallSound, Totalled, HostCloses, Members, Grouped, CalledIn;
  }

  /** One total, over any listing of the counted calls. */
  lemma TotalIs(c: Context, owners: map<string, nat>, requests: map<RequestKey, int>, steps: Steps, trail: seq<Step>,
      pairs: seq<StepCall>, f: Totals -> real, amount: Data -> real)
    requires Audited(c, owners, requests, steps, steps.Keys, trail) && Grows(f, amount)
    requires Lists(pairs, CountedCalls(c, owners, requests, steps))
    ensures f(AddSteps(trail)) == Sum(pairs, OfCall(steps, amount))
  {
    CallsAreCounted(c, owners, requests, steps, trail);
    hide Grows, CountedCalls, OfCall, Step.Sound, OwnStep, KeysOf, CountableStep;
    var other := StepsGrow(c, requests, steps, trail, f, amount);
    hide Lists, Audited;
    SumsOfOneSet(pairs, other, CallsOf(trail), OfCall(steps, amount));
  }

  lemma OnesCount(steps: Steps, counted: set<StepCall>, pairs: seq<StepCall>, says: Data -> bool)
    requires Lists(pairs, counted)
    ensures Sum(pairs, OfCall(steps, (d: Data) => if says(d) then 1.0 else 0.0))
            == |set p | p in counted && CallSays(steps, p, says)| as real
  {
    hide Lists, First;
    SumCounts(pairs, counted, (set p | p in counted && CallSays(steps, p, says)),
              OfCall(steps, (d: Data) => if says(d) then 1.0 else 0.0));
  }

  /** A counter of the counted calls that say something. */
  lemma CounterIs(c: Context, owners: map<string, nat>, requests: map<RequestKey, int>, steps: Steps,
      trail: seq<Step>, pairs: seq<StepCall>, f: Totals -> real, says: Data -> bool)
    requires Audited(c, owners, requests, steps, steps.Keys, trail)
    requires Grows(f, (d: Data) => if says(d) then 1.0 else 0.0)
    requires Lists(pairs, CountedCalls(c, owners, requests, steps))
    ensures f(AddSteps(trail))
            == |set p | p in CountedCalls(c, owners, requests, steps) && CallSays(steps, p, says)| as real
  {
    var counted := CountedCalls(c, owners, requests, steps);
    hide Audited, Grows, Lists, CountedCalls, CallSays, OfCall, AddSteps;
    TotalIs(c, owners, requests, steps, trail, pairs, f, (d: Data) => if says(d) then 1.0 else 0.0);
    OnesCount(steps, counted, pairs, says);
  }

  lemma CountedHasClose(c: Context, owners: map<string, nat>, requests: map<RequestKey, int>, steps: Steps,
      p: StepCall)
    requires Owners(c, owners) && p in CountedCalls(c, owners, requests, steps)
    ensures CallSays(steps, p, (d: Data) => true)
  {
    hide CountableStep, HostCloses, Members, First, Closings;
    assert NonBlank(Str(p.1));
    FirstIsClosing(steps[p.0], p.1);
  }

  /** The sums that a measurement reports, and that must not overflow. */
  ghost predicate InRange(steps: Steps, order: seq<string>, pairs: seq<StepCall>) {
    && 0.0 <= Sum(order, OfHost(steps, (d: Data) => Amount(d.durationMs))) <= MAX_SAFE_INTEGER as real
    && 0.0 <= Sum(pairs, OfCall(steps, (d: Data) => Amount(d.durationMs))) <= MAX_SAFE_INTEGER as real
    && 0.0 <= Sum(pairs, OfCall(steps, (d: Data) => Amount(d.attemptCount))) <= MAX_SAFE_INTEGER as real
    && 0.0 <= Sum(pairs, OfCall(steps, (d: Data) => Amount(d.failedAttemptCount))) <= MAX_SAFE_INTEGER as real
    && 0.0 <= Sum(pairs, OfCall(steps, (d: Data) => Amount(d.failedAttemptMs))) <= MAX_SAFE_INTEGER as real
    && 0.0 <= Sum(pairs, OfCall(steps, (d: Data) => Amount(d.retryWaitMs))) <= MAX_SAFE_INTEGER as real
  }

  /** Each total is the sum of its own field. */
  ghost predicate FieldSums(t: Totals, steps: Steps, order: seq<string>, pairs: seq<StepCall>) {
    && t.hostMs == Sum(order, OfHost(steps, (d: Data) => Amount(d.durationMs)))
    && t.callMs == Sum(pairs, OfCall(steps, (d: Data) => Amount(d.durationMs)))
    && t.attempts as real == Sum(pairs, OfCall(steps, (d: Data) => Amount(d.attemptCount)))
    && t.failed as real == Sum(pairs, OfCall(steps, (d: Data) => Amount(d.failedAttemptCount)))
    && t.failedMs == Sum(pairs, OfCall(steps, (d: Data) => Amount(d.failedAttemptMs)))
    && t.waitMs == Sum(pairs, OfCall(steps, (d: Data) => Amount(d.retryWaitMs)))
  }

  lemma TotalsAreFieldSums(c: Context, owners: map<string, nat>, requests: map<RequestKey, int>, steps: Steps,
      trail: seq<Step>, order: seq<string>, pairs: seq<StepCall>)
    requires Audited(c, owners, requests, steps, steps.Keys, trail)
    requires Lists(order, Counted(c, owners, requests, steps)) && Lists(pairs, CountedCalls(c, owners, requests, steps))
    ensures FieldSums(AddSteps(trail), steps, order, pairs)
  {
    hide Audited, Lists, Counted, CountedCalls, OfHost, OfCall, AddSteps;
    TotalIs(c, owners, requests, steps, trail, pairs, (t: Totals) => t.callMs, (d: Data) => Amount(d.durationMs));
    TotalIs(c, owners, requests, steps, trail, pairs, (t: Totals) => t.attempts as real,
            (d: Data) => Amount(d.attemptCount));
    TotalIs(c, owners, requests, steps, trail, pairs, (t: Totals) => t.failed as real,
            (d: Data) => Amount(d.failedAttemptCount));
    TotalIs(c, owners, requests, steps, trail, pairs, (t: Totals) => t.failedMs,
            (d: Data) => Amount(d.failedAttemptMs));
    TotalIs(c, owners, requests, steps, trail, pairs, (t: Totals) => t.waitMs, (d: Data) => Amount(d.retryWaitMs));
    HostTotalIs(c, owners, requests, steps, trail, order);
  }

  lemma HostTotalIs(c: Context, owners: map<string, nat>, requests: map<RequestKey, int>, steps: Steps,
      trail: seq<Step>, order: seq<string>)
    requires Audited(c, owners, requests, steps, steps.Keys, trail) && Lists(order, Counted(c, owners, requests, steps))
    ensures AddSteps(trail).hostMs == Sum(order, OfHost(steps, (d: Data) => Amount(d.durationMs)))
  {
    AuditedLists(c, owners, requests, steps, trail);
    hide Lists, Counted, OfHost, AddSteps, OwnStep, Step.Sound, KeysOf, CountableStep;
    HostsAddUp(c, owners, requests, steps, trail);
    SumsOfOneSet(order, Ids(trail), Counted(c, owners, requests, steps),
                 OfHost(steps, (d: Data) => Amount(d.durationMs)));
  }

  lemma StepsAre(c: Context, owners: map<string, nat>, requests: map<RequestKey, int>, steps: Steps,
      trail: seq<Step>, order: seq<string>)
    requires Audited(c, owners, requests, steps, steps.Keys, trail) && Lists(order, Counted(c, owners, requests, steps))
    ensures AddSteps(trail).hostSteps == |order|
  {
    var counted := Counted(c, owners, requests, steps);
    AuditTotals(c, owners, requests, steps, trail);
    AuditedLists(c, owners, requests, steps, trail);
    hide Audited, Lists, Counted, AddSteps, KeysOf, HostSteps, CountableStep;
    ListsSize(order, counted);
    ListsSize(Ids(trail), counted);
  }

  lemma CallsAre(c: Context, owners: map<string, nat>, requests: map<RequestKey, int>, steps: Steps,
      trail: seq<Step>, pairs: seq<StepCall>)
    requires Audited(c, owners, requests, steps, steps.Keys, trail)
    requires Lists(pairs, CountedCalls(c, owners, requests, steps))
    ensures AddSteps(trail).calls == |pairs|
  {
    var counted := CountedCalls(c, owners, requests, steps);
    forall p | p in counted {
      CountedHasClose(c, owners, requests, steps, p);
    }
    hide Audited, Lists, CountedCalls, CallSays, AddSteps;
    ListsSize(pairs, counted);
    CounterIs(c, owners, requests, steps, trail, pairs, (t: Totals) => t.calls as real, (d: Data) => true);
    assert (set p | p in counted && CallSays(steps, p, (d: Data) => true)) == counted;
  }

  lemma FlagsAre(c: Context, owners: map<string, nat>, requests: map<RequestKey, int>, steps: Steps,
      trail: seq<Step>, pairs: seq<StepCall>)
    requires Audited(c, owners, requests, steps, steps.Keys, trail)
    requires Lists(pairs, CountedCalls(c, owners, requests, steps))
    ensures var t, counted := AddSteps(trail), CountedCalls(c, owners, requests, steps);
            && t.retiredCalls == |set p | p in counted && CallSays(steps, p, (d: Data) => d.retired == Bool(true))|
            && t.abortedCalls
               == |set p | p in counted && CallSays(steps, p, (d: Data) => d.requestAborted == Bool(true))|
  {
    hide Audited, Lists, CountedCalls, CallSays, AddSteps;
    CounterIs(c, owners, requests, steps, trail, pairs, (t: Totals) => t.retiredCalls as real,
              (d: Data) => d.retired == Bool(true));
    CounterIs(c, owners, requests, steps, trail, pairs, (t: Totals) => t.abortedCalls as real,
              (d: Data) => d.requestAborted == Bool(true));
  }

  /** Each reported sum is the sum of its own journal field: of the host closes of
      the counted steps, and of the first closes of their counted calls, whatever
      the listing; the two counters count what these closes say. A sum is reported
      if and only if it ranges over something and none is out of range. */
  lemma ReportedSums(c: Context, m: Measurement, proof: Evidence, order: seq<string>, pairs: seq<StepCall>)
    requires Audited(c, proof.owners, proof.requests, proof.steps, proof.steps.Keys, proof.trail)
    requires m.Reports(AddSteps(proof.trail))
    requires Lists(order, Counted(c, proof.owners, proof.requests, proof.steps))
    requires Lists(pairs, CountedCalls(c, proof.owners, proof.requests, proof.steps))
    ensures m.observedHostSteps == |order| && m.calls == |pairs|
    ensures m.hostMs.Some? <==> order != [] && InRange(proof.steps, order, pairs)
    ensures m.callMs.Some? <==> pairs != [] && InRange(proof.steps, order, pairs)
    ensures m.hostMs.Some? ==>
              m.hostMs.value == Sum(order, OfHost(proof.steps, (d: Data) => Amount(d.durationMs)))
    ensures m.callMs.Some? ==>
              && m.callMs.value == Sum(pairs, OfCall(proof.steps, (d: Data) => Amount(d.durationMs)))
              && m.attempts.Some? && m.failed.Some? && m.failedMs.Some? && m.waitMs.Some?
              && m.attempts.value as real == Sum(pairs, OfCall(proof.steps, (d: Data) => Amount(d.attemptCount)))
              && m.failed.value as real == Sum(pairs, OfCall(proof.steps, (d: Data) => Amount(d.failedAttemptCount)))
              && m.failedMs.value == Sum(pairs, OfCall(proof.steps, (d: Data) => Amount(d.failedAttemptMs)))
              && m.waitMs.value == Sum(pairs, OfCall(proof.steps, (d: Data) => Amount(d.retryWaitMs)))
    ensures var counted := CountedCalls(c, proof.owners, proof.requests, proof.steps);
            && m.retiredCalls
               == |set p | p in counted && CallSays(proof.steps, p, (d: Data) => d.retired == Bool(true))|
            && m.abortedCalls
               == |set p | p in counted && CallSays(proof.steps, p, (d: Data) => d.requestAborted == Bool(true))|
  {
    TotalsAreFieldSums(c, proof.owners, proof.requests, proof.steps, proof.trail, order, pairs);
    StepsAre(c, proof.owners, proof.requests, proof.steps, proof.trail, order);
    CallsAre(c, proof.owners, proof.requests, proof.steps, proof.trail, pairs);
    FlagsAre(c, proof.owners, proof.requests, proof.steps, proof.trail, pairs);
    hide Audited, Lists, Counted, CountedCalls, CallSays, AddSteps, OfHost, OfCall, Sum;
    FitsInRange(AddSteps(proof.trail), proof.steps, order, pairs);
  }

  lemma FitsInRange(t: Totals, steps: Steps, order: seq<string>, pairs: seq<StepCall>)
    requires FieldSums(t, steps, order, pairs)
    ensures t.Fits() <==> InRange(steps, order, pairs)
  {
    hide Sum, OfHost, OfCall;
    var sums := [t.hostMs, t.callMs, t.attempts as real, t.failed as real, t.failedMs, t.waitMs];
    assert forall i | 0 <= i < |sums| :: sums[i] in sums;
    assert t.Fits() <==> forall x | x in sums :: Num(x).Timing();
    assert sums[0] == t.hostMs && sums[1] == t.callMs && sums[2] == t.attempts as real && sums[3] == t.failed as real
        && sums[4] == t.failedMs && sums[5] == t.waitMs;
  }
}
