/** The reported timing sums are determined by the journal (scripts/session-comparison.ts,
    measureModelTiming): whatever the order in which steps and calls are
    visited, the same steps and calls are counted, and they add up to the same. */
module TimingSums {
  import opened Groups
  import opened Listings
  import opened ModelTiming

  function Plus(): (Totals, Totals) -> Totals {
    (a: Totals, b: Totals) =>
      Totals(a.hostSteps + b.hostSteps, a.hostMs + b.hostMs, a.calls + b.calls, a.callMs + b.callMs,
             a.attempts + b.attempts,
             a.failed + b.failed, a.failedMs + b.failedMs, a.waitMs + b.waitMs, a.retiredCalls + b.retiredCalls,
             a.abortedCalls + b.abortedCalls, a.stepsWithCalls + b.stepsWithCalls)
  }

  lemma PlusIsAdditive()
    ensures Additive(Plus())
    ensures forall t :: Plus()(NO_TOTALS, t) == t && Plus()(t, NO_TOTALS) == t
  {
  }

  // ---------------------------------------------------------------- the calls of one step

  /** What one call adds. */
  ghost function CallShare(c: Context, source: nat, host: Event, byCall: Calls): string -> Totals {
    id => if id in byCall then NO_TOTALS.AddCall(TotalFor(c, source, host, byCall[id])) else NO_TOTALS
  }

  lemma AddCallIsPlus(t: Totals, call: CallTotal)
    ensures t.AddCall(call) == Plus()(t, NO_TOTALS.AddCall(call))
  {
  }

  lemma {:induction false} CallsAddUp(c: Context, source: nat, host: Event, byCall: Calls, order: seq<string>,
      calls: seq<CallTotal>)
    requires |order| == |calls|
    requires forall i | 0 <= i < |order| ::
               order[i] in byCall && calls[i] == TotalFor(c, source, host, byCall[order[i]])
    ensures AddCalls(NO_TOTALS, calls) == SumOver(order, NO_TOTALS, Plus(), CallShare(c, source, host, byCall))
  {
    hide TotalFor;
    if calls != [] {
      var n := |calls| - 1;
      CallsAddUp(c, source, host, byCall, order[..n], calls[..n]);
      AddCallIsPlus(AddCalls(NO_TOTALS, calls[..n]), calls[n]);
    }
  }

  /** Two listings of the counted calls add up to the same. */
  lemma CallSumsAgree(c: Context, source: nat, host: Event, byCall: Calls, counted: set<string>, x: seq<CallTotal>,
      y: seq<CallTotal>)
    requires exists order :: Totalled(c, source, host, byCall, counted, order, x)
    requires exists order :: Totalled(c, source, host, byCall, counted, order, y)
    ensures AddCalls(NO_TOTALS, x) == AddCalls(NO_TOTALS, y) && |x| == |y| == |counted|
  {
    hide TotalFor, Plus;
    var a :| Totalled(c, source, host, byCall, counted, a, x);
    var b :| Totalled(c, source, host, byCall, counted, b, y);
    PlusIsAdditive();
    ListsSize(a, counted);
    ListsSize(b, counted);
    SumIsOrderFree(a, b, counted, NO_TOTALS, Plus(), CallShare(c, source, host, byCall));
    CallsAddUp(c, source, host, byCall, a, x);
    CallsAddUp(c, source, host, byCall, b, y);
  }

  // ---------------------------------------------------------------- one step

  lemma {:induction false} AddCallsIsPlus(t: Totals, calls: seq<CallTotal>)
    ensures AddCalls(t, calls) == Plus()(t, AddCalls(NO_TOTALS, calls))
  {
    PlusIsAdditive();
    if calls != [] {
      var init, last := calls[..|calls| - 1], calls[|calls| - 1];
      AddCallsIsPlus(t, init);
      AddCallIsPlus(AddCalls(t, init), last);
      AddCallIsPlus(AddCalls(NO_TOTALS, init), last);
    }
  }

  /** What one counted step adds. */
  ghost function StepShare(step: Step): Totals {
    AddStep(NO_TOTALS, step)
  }

  lemma AddStepIsPlus(t: Totals, step: Step)
    ensures AddStep(t, step) == Plus()(t, StepShare(step))
  {
    var ms := NumberOf(step.host.data.durationMs);
    AddCallsIsPlus(t.AddHost(ms), step.calls);
    AddCallsIsPlus(NO_TOTALS.AddHost(ms), step.calls);
    hide AddCalls;
  }

  /** A counted step adds the same in every trail. */
  lemma SameShare(c: Context, owners: map<string, nat>, requests: map<RequestKey, int>, steps: Steps, x: Step, y: Step)
    requires x.id == y.id && x.Sound(c, requests, steps) && y.Sound(c, requests, steps)
    requires OwnStep(c, owners, requests, steps, x) && OwnStep(c, owners, requests, steps, y)
    ensures StepShare(x) == StepShare(y)
  {
    hide CountableStep, Countable, CallSound, Grouped, AddCalls, Totalled, HostCloses, HostSteps, CallKey;
    GroupsUnique(steps[x.id], CallKey(), x.byCall, y.byCall);
    CallSumsAgree(c, RowKey(c, x.host).0, x.host, x.byCall, x.counted, x.calls, y.calls);
    AddCallsIsPlus(NO_TOTALS.AddHost(NumberOf(x.host.data.durationMs)), x.calls);
    AddCallsIsPlus(NO_TOTALS.AddHost(NumberOf(x.host.data.durationMs)), y.calls);
  }

  // ---------------------------------------------------------------- the whole task

  ghost predicate Distinct(trail: seq<Step>) {
    forall i, j | 0 <= i < j < |trail| :: trail[i].id != trail[j].id
  }

  ghost function Ids(trail: seq<Step>): seq<string> {
    seq(|trail|, i requires 0 <= i < |trail| => trail[i].id)
  }

  /** `share` is what the steps of the trail add. */
  ghost predicate Shares(trail: seq<Step>, share: string -> Totals) {
    forall step | step in trail :: share(step.id) == StepShare(step)
  }

  lemma {:induction false} StepsAddUp(trail: seq<Step>, share: string -> Totals)
    requires Shares(trail, share)
    ensures AddSteps(trail) == SumOver(Ids(trail), NO_TOTALS, Plus(), share)
  {
    hide AddStep, StepShare, Plus;
    if trail != [] {
      var init, last := trail[..|trail| - 1], trail[|trail| - 1];
      assert trail == init + [last];
      assert Ids(trail)[..|init|] == Ids(init);
      StepsAddUp(init, share);
      AddStepIsPlus(AddSteps(init), last);
    }
  }

  /** The step of `trail` with this id. */
  ghost function StepAt(trail: seq<Step>, id: string): Step
    requires exists step :: step in trail && step.id == id
  {
    var step :| step in trail && step.id == id;
    step
  }

  ghost function SharesOf(trail: seq<Step>): string -> Totals {
    id => if exists step :: step in trail && step.id == id then StepShare(StepAt(trail, id)) else NO_TOTALS
  }

  ghost function Counted(c: Context, owners: map<string, nat>, requests: map<RequestKey, int>,
      steps: Steps): set<string>
    requires Owners(c, owners)
  {
    set k | k in steps && CountableStep(c, owners, requests, steps, k)
  }

  lemma AuditedLists(c: Context, owners: map<string, nat>, requests: map<RequestKey, int>, steps: Steps,
      trail: seq<Step>)
    requires Audited(c, owners, requests, steps, steps.Keys, trail)
    ensures Lists(Ids(trail), Counted(c, owners, requests, steps))
  {
    hide CountableStep, Step.Sound, KeysOf;
    var ids := Ids(trail);
    forall k ensures k in ids <==> k in Counted(c, owners, requests, steps) {
      if k in ids {
        var i :| 0 <= i < |ids| && ids[i] == k;
        assert trail[i] in trail;
      }
      if k in Counted(c, owners, requests, steps) {
        var step :| step in trail && step.id == k;
        var i :| 0 <= i < |trail| && trail[i] == step;
        assert ids[i] == k;
      }
    }
  }

  lemma AuditedShares(c: Context, owners: map<string, nat>, requests: map<RequestKey, int>, steps: Steps, a: seq<Step>,
      b: seq<Step>)
    requires Audited(c, owners, requests, steps, steps.Keys, a) && Audited(c, owners, requests, steps, steps.Keys, b)
    ensures Shares(b, SharesOf(a))
  {
    hide CountableStep, Step.Sound, KeysOf, StepShare;
    forall step | step in b ensures SharesOf(a)(step.id) == StepShare(step) {
      assert OwnStep(c, owners, requests, steps, step);
      var other := StepAt(a, step.id);
      SameShare(c, owners, requests, steps, other, step);
    }
  }

  /** The sums are fixed: two audits of one journal add up to the same totals. */
  lemma SumsAreFixed(c: Context, owners: map<string, nat>, requests: map<RequestKey, int>, steps: Steps, a: seq<Step>,
      b: seq<Step>)
    requires Audited(c, owners, requests, steps, steps.Keys, a) && Audited(c, owners, requests, steps, steps.Keys, b)
    ensures AddSteps(a) == AddSteps(b)
  {
    AuditedLists(c, owners, requests, steps, a);
    AuditedLists(c, owners, requests, steps, b);
    AuditedShares(c, owners, requests, steps, a, a);
    AuditedShares(c, owners, requests, steps, a, b);
    PlusIsAdditive();
    hide Audited, Plus, SharesOf, Lists, Shares;
    SumIsOrderFree(Ids(a), Ids(b), Counted(c, owners, requests, steps), NO_TOTALS, Plus(), SharesOf(a));
    StepsAddUp(a, SharesOf(a));
    StepsAddUp(b, SharesOf(a));
  }
}
