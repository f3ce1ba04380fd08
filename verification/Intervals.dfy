/** Time intervals in whole milliseconds, and the sorted sweep that measures the
    union of a list of them (scripts/session-comparison.ts, intervalUnionMs). */
module Intervals {
  import opened Groups
  import opened Identifiers

  /** A half-open span of time; `finish` may precede `start`, and then it is empty. */
  datatype Interval = Interval(start: int, finish: int)

  function Max(a: int, b: int): int {
    if a < b then b else a
  }

  ghost function Span(start: int, finish: int): (span: set<int>)
    ensures forall t :: t in span <==> start <= t < finish
    ensures |span| == Max(0, finish - start)
    decreases finish - start
  {
    if start < finish then Span(start, finish - 1) + {finish - 1} else {}
  }

  /** Every instant that some interval of the list covers. */
  ghost function Covered(intervals: seq<Interval>): set<int> {
    set i, t | 0 <= i < |intervals| && t in Span(intervals[i].start, intervals[i].finish) :: t
  }

  ghost predicate SortedByStart(s: seq<Interval>) {
    forall i, j | 0 <= i < j < |s| :: s[i].start <= s[j].start
  }

  function Insert(x: Interval, sorted: seq<Interval>): seq<Interval> {
    if sorted == [] || x.start <= sorted[0].start then [x] + sorted
    else [sorted[0]] + Insert(x, sorted[1..])
  }

  /** `[...intervals].sort((a, b) => a[0] - b[0])`; the library sort is stable. */
  function Sort(intervals: seq<Interval>): seq<Interval> {
    if intervals == [] then [] else Insert(intervals[0], Sort(intervals[1..]))
  }

  lemma {:induction false} InsertPermutes(x: Interval, sorted: seq<Interval>)
    ensures multiset(Insert(x, sorted)) == multiset([x] + sorted)
  {
    if sorted != [] && x.start > sorted[0].start {
      InsertPermutes(x, sorted[1..]);
      assert [x] + sorted == [x] + [sorted[0]] + sorted[1..];
    }
  }

  lemma {:induction false} InsertMembers(x: Interval, sorted: seq<Interval>)
    ensures forall y | y in Insert(x, sorted) :: y == x || y in sorted
  {
    if sorted != [] && x.start > sorted[0].start {
      InsertMembers(x, sorted[1..]);
    }
  }

  lemma {:induction false} InsertSorts(x: Interval, sorted: seq<Interval>)
    requires SortedByStart(sorted)
    ensures SortedByStart(Insert(x, sorted))
  {
    if sorted != [] && x.start > sorted[0].start {
      var rest := Insert(x, sorted[1..]);
      InsertSorts(x, sorted[1..]);
      InsertMembers(x, sorted[1..]);
      assert forall y | y in sorted[1..] :: sorted[0].start <= y.start;
      forall i | 0 <= i < |rest| ensures sorted[0].start <= rest[i].start {
        assert rest[i] in rest;
      }
    }
  }

  lemma {:induction false} SortSorts(intervals: seq<Interval>)
    ensures SortedByStart(Sort(intervals))
    ensures multiset(Sort(intervals)) == multiset(intervals)
  {
    if intervals != [] {
      SortSorts(intervals[1..]);
      InsertSorts(intervals[0], Sort(intervals[1..]));
      InsertPermutes(intervals[0], Sort(intervals[1..]));
      assert intervals == [intervals[0]] + intervals[1..];
    }
  }

  /** What a list covers does not depend on its order. */
  lemma CoveredPermutes(a: seq<Interval>, b: seq<Interval>)
    requires multiset(a) == multiset(b)
    ensures Covered(a) == Covered(b)
  {
    forall x: Interval ensures x in a <==> x in b {
      assert x in a <==> x in multiset(a);
    }
    forall t ensures t in Covered(a) <==> t in Covered(b) {
      assert t in Covered(a) <==> exists x :: x in a && t in Span(x.start, x.finish);
      assert t in Covered(b) <==> exists x :: x in b && t in Span(x.start, x.finish);
    }
  }

  ghost predicate Before(instants: set<int>, end: int) {
    forall t | t in instants :: t < end
  }

  /** The sweep's state after some intervals: everything covered so far lies
      before `end`, and there is no gap between the last start and `end`. */
  ghost predicate Swept(done: seq<Interval>, end: Option<int>, total: int) {
    && total == |Covered(done)|
    && (end.None? <==> done == [])
    && (end.Some? ==>
          && Before(Covered(done), end.value)
          && Span(done[|done| - 1].start, end.value) <= Covered(done))
  }

  lemma CoveredStep(done: seq<Interval>, next: Interval)
    ensures Covered(done + [next]) == Covered(done) + Span(next.start, next.finish)
  {
    var all := done + [next];
    forall t | t in Covered(done) ensures t in Covered(all) {
      var i :| 0 <= i < |done| && t in Span(done[i].start, done[i].finish);
      assert all[i] == done[i];
    }
    assert all[|done|] == next;
  }

  /** The end and the total after one more interval. */
  function Advance(end: Option<int>, total: int, x: Interval): (Option<int>, int) {
    if end.None? then (Some(x.finish), total + Max(0, x.finish - x.start))
    else (Some(Max(end.value, x.finish)), total + Max(0, x.finish - Max(x.start, end.value)))
  }

  /** A span that starts no earlier than `last` adds only what lies past `end`. */
  lemma SpanAdds(covered: set<int>, last: int, end: int, x: Interval)
    requires Before(covered, end) && Span(last, end) <= covered && last <= x.start
    ensures |covered + Span(x.start, x.finish)| == |covered| + Max(0, x.finish - Max(x.start, end))
    ensures Before(covered + Span(x.start, x.finish), Max(end, x.finish))
    ensures Span(x.start, Max(end, x.finish)) <= covered + Span(x.start, x.finish)
  {
    var added := Span(Max(x.start, end), x.finish);
    assert covered + Span(x.start, x.finish) == covered + added;
    assert covered !! added;
  }

  lemma SweepFirst(x: Interval)
    ensures Swept([x], Some(x.finish), Max(0, x.finish - x.start))
  {
    assert Covered([x]) == Span(x.start, x.finish) by {
      assert [x][0] == x;
    }
  }

  lemma SweepNext(done: seq<Interval>, x: Interval, end: int, total: int)
    requires done != [] && Swept(done, Some(end), total)
    requires done[|done| - 1].start <= x.start
    ensures Swept(done + [x], Some(Max(end, x.finish)), total + Max(0, x.finish - Max(x.start, end)))
  {
    CoveredStep(done, x);
    SpanAdds(Covered(done), done[|done| - 1].start, end, x);
    hide Covered, Span, Before;
  }

  lemma SweptStart(done: seq<Interval>, end: Option<int>, total: int)
    requires Swept(done, end, total)
    ensures end.None? <==> done == []
    ensures end.None? ==> total == 0
  {
  }

  lemma SweepStep(done: seq<Interval>, x: Interval, end: Option<int>, total: int)
    requires Swept(done, end, total)
    requires done != [] ==> done[|done| - 1].start <= x.start
    ensures var (end', total') := Advance(end, total, x); Swept(done + [x], end', total')
  {
    hide Swept;
    SweptStart(done, end, total);
    if end.Some? {
      SweepNext(done, x, end.value, total);
    } else {
      SweepFirst(x);
      assert done + [x] == [x];
    }
  }

  lemma NothingSwept()
    ensures Swept([], None, 0)
  {
  }

  lemma SweptTotal(done: seq<Interval>, end: Option<int>, total: int)
    requires Swept(done, end, total)
    ensures total == |Covered(done)|
  {
  }

  /** The sweep measures the union of the intervals, whatever their order,
      overlaps and nesting, and even when some finish before they start. */
  method IntervalUnionMs(intervals: seq<Interval>) returns (total: int)
    ensures total == |Covered(intervals)|
  {
    var sorted := Sort(intervals);
    SortSorts(intervals);
    total := 0;
    var end: Option<int> := None;
    NothingSwept();
    hide Covered, Swept, Advance;
    for n := 0 to |sorted|
      invariant Swept(sorted[..n], end, total)
    {
      assert sorted[..n + 1] == sorted[..n] + [sorted[n]];
      SweepStep(sorted[..n], sorted[n], end, total);
      var (end', total') := Advance(end, total, sorted[n]);
      end, total := end', total';
    }
    assert sorted[..|sorted|] == sorted;
    SweptTotal(sorted, end, total);
    CoveredPermutes(sorted, intervals);
  }

  /** A union never exceeds a window that contains every interval. */
  lemma UnionWithinWindow(intervals: seq<Interval>, lo: int, hi: int)
    requires lo <= hi
    requires forall x | x in intervals :: lo <= x.start && x.finish <= hi
    ensures |Covered(intervals)| <= hi - lo
  {
    assert Covered(intervals) <= Span(lo, hi);
    SubsetSize(Covered(intervals), Span(lo, hi));
  }
}
