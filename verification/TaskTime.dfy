/** The wall time of one task and the approval waits inside it
    (scripts/session-comparison.ts, the end of measureAcceptedTask). */
module TaskTime {
  import opened Identifiers
  import opened Intervals

  /** An approval that the task waited for; its timestamps may be unreadable. */
  datatype Wait = Wait(approvalId: string, requested: Option<int>, resolved: Option<int>)

  /** The window of one accepted source, from its timestamp to its last bound;
      an unreadable bound counts as 0. */
  datatype SourceTimes = SourceTimes(seqNo: nat, start: Option<int>, terminal: Option<int>, closeout: Option<int>)
  {
    function End(): int {
      Max(terminal.GetOr(0), closeout.GetOr(0))
    }

    predicate Bounded() {
      start.Some? && End() >= start.value
    }
  }

  datatype Issue = UnprovedLineage | UnboundedWait(approvalId: string) | UnboundedWindow(source: nat)

  function TaskWallMs(lineageProved: bool, allTerminal: bool, start: Option<int>, end: Option<int>): Option<int> {
    if lineageProved && allTerminal && start.Some? && end.Some? && end.value >= start.value
    then Some(end.value - start.value) else None
  }

  /** The wait is known and lies inside the task. */
  predicate Within(wall: Option<int>, start: Option<int>, end: Option<int>, w: Wait) {
    && wall.Some? && start.Some? && end.Some? && w.requested.Some? && w.resolved.Some?
    && start.value <= w.requested.value <= w.resolved.value <= end.value
  }

  function SpanOf(w: Wait): Interval {
    Interval(w.requested.GetOr(0), w.resolved.GetOr(0))
  }

  ghost function Spans(waits: seq<Wait>): seq<Interval> {
    seq(|waits|, i requires 0 <= i < |waits| => SpanOf(waits[i]))
  }

  /** The waits that are not known to lie inside the task. */
  ghost function Unbounded(waits: seq<Wait>, wall: Option<int>, start: Option<int>, end: Option<int>): set<Issue> {
    set w | w in waits && !Within(wall, start, end, w) :: UnboundedWait(w.approvalId)
  }

  method MeasureWaits(waits: seq<Wait>, lineageProved: bool, allTerminal: bool, start: Option<int>, end: Option<int>)
    returns (wall: Option<int>, waitMs: Option<int>, issues: set<Issue>)
    ensures wall == TaskWallMs(lineageProved, allTerminal, start, end)
    ensures waitMs.Some? <==> lineageProved && forall w | w in waits :: Within(wall, start, end, w)
    ensures waitMs.Some? ==> waitMs.value == |Covered(Spans(waits))|
    ensures waitMs.Some? && wall.Some? ==> 0 <= waitMs.value <= wall.value
    ensures issues == (if lineageProved then {} else {UnprovedLineage}) + Unbounded(waits, wall, start, end)
    ensures waitMs.Some? <==> issues == {}
  {
    hide Covered;
    wall := TaskWallMs(lineageProved, allTerminal, start, end);
    issues := if lineageProved then {} else {UnprovedLineage};
    var spans: seq<Interval> := [];
    for n := 0 to |waits|
      invariant issues == {} ==> lineageProved && spans == Spans(waits[..n])
      invariant issues == {} <==> lineageProved && forall w | w in waits[..n] :: Within(wall, start, end, w)
      invariant issues == (if lineageProved then {} else {UnprovedLineage}) + Unbounded(waits[..n], wall, start, end)
      invariant forall x | x in spans :: wall.Some? && start.value <= x.start && x.finish <= end.value
    {
      assert waits[..n + 1] == waits[..n] + [waits[n]];
      if Within(wall, start, end, waits[n]) {
        spans := spans + [SpanOf(waits[n])];
      } else {
        issues := issues + {UnboundedWait(waits[n].approvalId)};
      }
    }
    assert waits[..|waits|] == waits;
    waitMs := None;
    if issues == {} {
      var total := IntervalUnionMs(spans);
      waitMs := Some(total);
      if wall.Some? {
        UnionWithinWindow(spans, start.value, end.value);
      }
    }
  }

  /** The waits cover exactly the instants between the request and the resolution
      of some approval. */
  lemma WaitInstants(waits: seq<Wait>, t: int)
    requires forall w | w in waits :: w.requested.Some? && w.resolved.Some?
    ensures t in Covered(Spans(waits)) <==>
              exists w, a, b :: w in waits && w.requested == Some(a) && w.resolved == Some(b) && a <= t < b
  {
    var spans := Spans(waits);
    if t in Covered(spans) {
      var i :| 0 <= i < |spans| && t in Span(spans[i].start, spans[i].finish);
      var w := waits[i];
      assert w in waits && w.requested == Some(w.requested.value) && w.resolved == Some(w.resolved.value);
    }
    if w, a, b :| w in waits && w.requested == Some(a) && w.resolved == Some(b) && a <= t < b {
      var i :| 0 <= i < |waits| && waits[i] == w;
      assert t in Span(spans[i].start, spans[i].finish);
    }
  }

  /** The segments cover exactly the instants from the start of some source to its
      terminal or its closeout, the later one; an unreadable one counts as 0. */
  lemma SegmentInstants(sources: seq<SourceTimes>, t: int)
    ensures t in Windows(sources) <==>
              exists s, a :: s in sources && s.start == Some(a) && a <= t
                             && (t < s.terminal.GetOr(0) || t < s.closeout.GetOr(0))
  {
    if t in Windows(sources) {
      var s :| s in sources && s.start.Some? && t in Span(s.start.value, s.End());
      assert s.start == Some(s.start.value);
    }
    if s, a :| s in sources && s.start == Some(a) && a <= t && (t < s.terminal.GetOr(0) || t < s.closeout.GetOr(0)) {
      assert t in Span(s.start.value, s.End());
    }
  }

  ghost function Windows(sources: seq<SourceTimes>): set<int> {
    set s, t | s in sources && s.start.Some? && t in Span(s.start.value, s.End()) :: t
  }

  /** The segment time is the measure of the union of the source windows, and is
      reported exactly when every source has a window. */
  method MeasureSegments(sources: seq<SourceTimes>) returns (segmentMs: Option<int>, issues: set<Issue>)
    ensures segmentMs.Some? <==> forall s | s in sources :: s.Bounded()
    ensures segmentMs.Some? ==> segmentMs.value == |Windows(sources)|
    ensures issues == set s | s in sources && !s.Bounded() :: UnboundedWindow(s.seqNo)
  {
    hide Span;
    issues := {};
    var windows: seq<Interval> := [];
    for n := 0 to |sources|
      invariant |windows| <= n
      invariant |windows| == n <==> forall s | s in sources[..n] :: s.Bounded()
      invariant |windows| == n ==>
                  forall i | 0 <= i < n ::
                    sources[i].start.Some? && windows[i] == Interval(sources[i].start.value, sources[i].End())
      invariant issues == set s | s in sources[..n] && !s.Bounded() :: UnboundedWindow(s.seqNo)
    {
      assert sources[..n + 1] == sources[..n] + [sources[n]];
      if sources[n].Bounded() {
        windows := windows + [Interval(sources[n].start.value, sources[n].End())];
      } else {
        issues := issues + {UnboundedWindow(sources[n].seqNo)};
      }
    }
    assert sources[..|sources|] == sources;
    segmentMs := None;
    if |windows| == |sources| {
      var total := IntervalUnionMs(windows);
      segmentMs := Some(total);
      CoveredAreWindows(sources, windows);
    }
  }

  lemma CoveredAreWindows(sources: seq<SourceTimes>, windows: seq<Interval>)
    requires |windows| == |sources|
    requires forall i | 0 <= i < |sources| ::
               sources[i].start.Some? && windows[i] == Interval(sources[i].start.value, sources[i].End())
    ensures Covered(windows) == Windows(sources)
  {
  }

  /** The task's time is known exactly when its lineage is proved, every member has
      its terminal, and the task ends after it starts. */
  lemma WallIs(lineageProved: bool, allTerminal: bool, start: Option<int>, end: Option<int>, ms: int)
    ensures TaskWallMs(lineageProved, allTerminal, start, end) == Some(ms) <==>
              lineageProved && allTerminal
              && exists a, b :: start == Some(a) && end == Some(b) && a <= b && b - a == ms
  {
    if TaskWallMs(lineageProved, allTerminal, start, end) == Some(ms) {
      assert start == Some(start.value) && end == Some(end.value);
    }
  }

  /** A source has a window exactly when its terminal or its closeout does not
      precede its start. */
  lemma BoundedIs(s: SourceTimes)
    ensures s.Bounded() <==> exists a :: s.start == Some(a) && (a <= s.terminal.GetOr(0) || a <= s.closeout.GetOr(0))
  {
    if s.Bounded() {
      assert s.start == Some(s.start.value);
    }
  }
}
