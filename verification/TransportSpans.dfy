/** What the two time unions of the transport observations cover, instant by
    instant (scripts/session-comparison.ts, measureTransportObservations): the
    time from a settled dispatch to its end, and from the earliest dispatch of an
    attempt to its proved result, as the journal fields give them. */
module TransportSpans {
  import opened Groups
  import opened Identifiers
  import opened Intervals
  import opened Json
  import opened Transport
  import opened Usage

  // ---------------------------------------------------------------- the journal fields

  ghost predicate SameAttempt(x: Event, y: Event) {
    && x.data.sourceUserSeq == y.data.sourceUserSeq && x.data.runAttemptId == y.data.runAttemptId
    && x.data.modelCallId == y.data.modelCallId && x.data.physicalAttempt == y.data.physicalAttempt
  }

  /** The event ends a dispatch of this identity and attempt. */
  ghost function EndsLike(d: Event): Event -> bool {
    (x: Event) => SameAttempt(x, d) && x.data.dispatchId == d.data.dispatchId
                  && x.data.phase in {Str("headers_received"), Str("dispatch_failed")}
  }

  ghost function DispatchedLike(e: Event): Event -> bool {
    (x: Event) => SameAttempt(x, e) && x.data.phase == Str("dispatch_started")
  }

  /** The event's own clock shows `at`. */
  ghost predicate Clocked(e: Event, at: int) {
    e.data.clock == Str("host_epoch_ms") && e.data.at == Num(at as real) && 0 <= at <= MAX_SAFE_INTEGER
  }

  /** `t` lies between the two events, and the window bounds them both. */
  ghost predicate Between(w: Window, first: Event, last: Event, t: int) {
    && w.lineageProved && w.start.Some? && w.end.Some?
    && exists a, b ::
         Clocked(first, a) && Clocked(last, b) && w.start.value <= a <= b <= w.end.value && a <= t < b
  }

  /** Some valid dispatch with one end, later and on the same wire, was under way. */
  ghost predicate OnWire(w: Window, owned: seq<Event>, t: int) {
    exists d, e :: d in owned && e in owned && Settles(owned, d, e) && Between(w, d, e, t)
  }

  ghost predicate Settles(owned: seq<Event>, d: Event, e: Event) {
    && d.data.phase == Str("dispatch_started") && Exact(d.data.dispatchId)
    && d.data.transport in {Str("raw_claude_messages"), Str("typesafe_systemone")}
    && d.data.wireSubattempt.PositiveSeq().Some?
    && EndsLike(d)(e) && Count(owned, EndsLike(d)) == 1 && d.seqNo < e.seqNo
    && e.data.transport == d.data.transport && e.data.wireSubattempt == d.data.wireSubattempt
  }

  /** Some proved result was under way since the earliest dispatch of its attempt. */
  ghost predicate InModel(w: Window, t: Tallies, owned: seq<Event>, instant: int) {
    exists e, f :: e in owned && ProvedResult(t, AttemptOf(owned, e), e) && IsEarliest(owned, DispatchedLike(e), f)
                   && Between(w, f, e, instant)
  }

  /** `f` has the least sequence among the events with `p`, the last of equal ones. */
  ghost predicate IsEarliest(s: seq<Event>, p: Event -> bool, f: Event) {
    exists i :: 0 <= i < |s| && s[i] == f && p(f)
                && forall j | 0 <= j < |s| && p(s[j]) :: f.seqNo < s[j].seqNo || (f.seqNo == s[j].seqNo && j <= i)
  }

  // ---------------------------------------------------------------- attempts and filters

  lemma OneAttempt(c: Context, x: Event, y: Event)
    requires OwnedBy(c)(x) && OwnedBy(c)(y)
    ensures KeyFor(x) == KeyFor(y) <==> SameAttempt(x, y)
  {
    PositiveIsValue(x.data.sourceUserSeq, y.data.sourceUserSeq);
    PositiveIsValue(x.data.physicalAttempt, y.data.physicalAttempt);
  }

  lemma PositiveIsValue(a: Value, b: Value)
    requires a.PositiveSeq().Some? && b.PositiveSeq().Some?
    ensures a.PositiveSeq() == b.PositiveSeq() <==> a == b
  {
  }

  lemma {:induction false} FilterOfMembers(s: seq<Event>, k: Key, p: Event -> bool, q: Event -> bool)
    requires forall x | x in s :: q(x) <==> KeyFor(x) == k && p(x)
    ensures Filter(Members(s, KeyOf(), k), p) == Filter(s, q)
  {
    hide KeyFor;
    if s != [] {
      var init, last := s[..|s| - 1], s[|s| - 1];
      FilterOfMembers(init, k, p, q);
      var members := Members(init, KeyOf(), k);
      assert (members + [last])[..|members|] == members && members + [] == members;
    }
  }

  lemma {:induction false} FilterCounts(s: seq<Event>, p: Event -> bool)
    ensures |Filter(s, p)| == Count(s, p)
  {
    if s != [] {
      FilterCounts(s[..|s| - 1], p);
    }
  }

  lemma {:induction false} EarliestIs(s: seq<Event>, p: Event -> bool)
    requires Filter(s, p) != []
    ensures IsEarliest(s, p, Earliest(Filter(s, p)))
  {
    var init, last := s[..|s| - 1], s[|s| - 1];
    var before := Filter(init, p);
    assert init + [last] == s;
    if before == [] {
      EarliestAlone(init, p, last);
    } else {
      EarliestIs(init, p);
      EarliestNext(init, p, Earliest(before), last);
      EarliestOfMore(before, last);
      assert before + [] == before;
    }
    hide IsEarliest, Earliest;
  }

  lemma EarliestOfMore(s: seq<Event>, last: Event)
    requires s != []
    ensures Earliest(s + [last]) == if last.seqNo <= Earliest(s).seqNo then last else Earliest(s)
  {
    assert (s + [last])[..|s|] == s;
  }

  lemma EarliestAlone(init: seq<Event>, p: Event -> bool, last: Event)
    requires Filter(init, p) == [] && p(last)
    ensures IsEarliest(init + [last], p, last)
  {
    assert forall x | x in init :: !p(x);
    assert forall j | 0 <= j < |init| :: !p(init[j]);
    assert (init + [last])[|init|] == last;
  }

  lemma EarliestNext(s: seq<Event>, p: Event -> bool, f: Event, last: Event)
    requires IsEarliest(s, p, f)
    ensures IsEarliest(s + [last], p, if p(last) && last.seqNo <= f.seqNo then last else f)
  {
    var i :| 0 <= i < |s| && s[i] == f && p(f)
        && forall j | 0 <= j < |s| && p(s[j]) :: f.seqNo < s[j].seqNo || (f.seqNo == s[j].seqNo && j <= i);
    assert (s + [last])[i] == f && (s + [last])[|s|] == last;
  }

  lemma EarliestUnique(s: seq<Event>, p: Event -> bool, f: Event, g: Event)
    requires IsEarliest(s, p, f) && IsEarliest(s, p, g)
    ensures f == g
  {
  }

  // ---------------------------------------------------------------- spans

  lemma ClockReads(e: Event, at: int)
    ensures EventTime(e) == Some(at) <==> Clocked(e, at)
  {
  }

  /** The interval between two events covers exactly the instants between them. */
  lemma IntervalCovers(w: Window, first: Event, last: Event, t: int)
    ensures Between(w, first, last, t)
            <==> exists x :: IntervalOf(w, first, last) == Some(x) && t in Span(x.start, x.finish)
  {
    if Between(w, first, last, t) {
      var a, b :| Clocked(first, a) && Clocked(last, b) && w.start.value <= a <= b <= w.end.value && a <= t < b;
      ClockReads(first, a);
      ClockReads(last, b);
    }
    if x :| IntervalOf(w, first, last) == Some(x) && t in Span(x.start, x.finish) {
      ClockReads(first, x.start);
      ClockReads(last, x.finish);
    }
    hide EventTime, Clocked;
  }

  /** An instant is covered exactly when the span of some owned event covers it. */
  lemma CoveredBySome(spanOf: (seq<Event>, Event) -> Option<Interval>, owned: seq<Event>, spans: seq<Interval>, t: int)
    requires CollectedAll(spanOf, owned, spans)
    ensures t in Covered(spans) <==> exists e, x ::
              e in owned && spanOf(AttemptOf(owned, e), e) == Some(x) && t in Span(x.start, x.finish)
  {
    hide AttemptOf, Span;
    if t in Covered(spans) {
      var i :| 0 <= i < |spans| && t in Span(spans[i].start, spans[i].finish);
      assert spans[i] in spans;
    }
    if e, x :| e in owned && spanOf(AttemptOf(owned, e), e) == Some(x) && t in Span(x.start, x.finish) {
      assert x in spans;
      var i :| 0 <= i < |spans| && spans[i] == x;
    }
  }

  lemma WireSpanIs(c: Context, w: Window, owned: seq<Event>, d: Event)
    requires (forall e | e in owned :: OwnedBy(c)(e)) && d in owned
    ensures WireSpan(w)(AttemptOf(owned, d), d).Some?
            ==> exists e :: e in owned && Settles(owned, d, e)
                            && WireSpan(w)(AttemptOf(owned, d), d) == IntervalOf(w, d, e)
    ensures forall e | e in owned && Settles(owned, d, e) ::
              WireSpan(w)(AttemptOf(owned, d), d) == IntervalOf(w, d, e)
  {
    hide Settles, SettledAs, EndOf, AttemptOf, OwnedBy, IntervalOf;
    forall e | e in owned {
      SettlesMeans(c, owned, d, e);
    }
  }

  lemma SoleFiltered(s: seq<Event>, p: Event -> bool)
    ensures |Filter(s, p)| == Count(s, p)
    ensures |Filter(s, p)| == 1 ==> forall e :: e == Filter(s, p)[0] <==> e in s && p(e)
  {
    FilterCounts(s, p);
    var r := Filter(s, p);
    assert forall e :: e in r <==> e in s && p(e);
    hide Filter, Count;
    if |r| == 1 {
      assert r[0] in r;
    }
  }

  lemma SettlesMeans(c: Context, owned: seq<Event>, d: Event, e: Event)
    requires (forall x | x in owned :: OwnedBy(c)(x)) && d in owned && e in owned
    ensures var group := AttemptOf(owned, d);
            var settled := SettledAs(group, "headers_received", d) || SettledAs(group, "dispatch_failed", d);
            && (Settles(owned, d, e) <==> settled && EndOf(group, d) == e)
            && (settled ==> EndOf(group, d) in owned)
  {
    SameEnds(c, owned, d);
    SoleFiltered(owned, EndsLike(d));
    hide Filter, AttemptOf, OwnedBy, Count, SameAttempt;
  }

  lemma SameEnds(c: Context, owned: seq<Event>, d: Event)
    requires (forall e | e in owned :: OwnedBy(c)(e)) && d in owned
    ensures Ends(AttemptOf(owned, d), d.data.dispatchId) == Filter(owned, EndsLike(d))
  {
    var p := (e: Event) => e.data.dispatchId == d.data.dispatchId
                           && (Phase(e, "headers_received") || Phase(e, "dispatch_failed"));
    forall x | x in owned {
      OneAttempt(c, x, d);
    }
    hide Filter, Members, KeyFor, OwnedBy;
    FilterOfMembers(owned, KeyFor(d), p, EndsLike(d));
  }

  /** The wire union covers exactly the instants at which a settled dispatch of the
      task was under way. */
  lemma WireInstants(c: Context, w: Window, owned: seq<Event>, spans: seq<Interval>)
    requires CollectedAll(WireSpan(w), owned, spans) && forall e | e in owned :: OwnedBy(c)(e)
    ensures forall t :: t in Covered(spans) <==> OnWire(w, owned, t)
  {
    hide Settles, IntervalOf, AttemptOf, Span, OwnedBy, Between, Covered, WireSpan, CollectedAll;
    forall t ensures t in Covered(spans) <==> OnWire(w, owned, t) {
      CoveredBySome(WireSpan(w), owned, spans, t);
      if t in Covered(spans) {
        var d, x :| d in owned && WireSpan(w)(AttemptOf(owned, d), d) == Some(x) && t in Span(x.start, x.finish);
        WireSpanIs(c, w, owned, d);
        var e :| e in owned && Settles(owned, d, e) && WireSpan(w)(AttemptOf(owned, d), d) == IntervalOf(w, d, e);
        IntervalCovers(w, d, e, t);
      }
      if d, e :| d in owned && e in owned && Settles(owned, d, e) && Between(w, d, e, t) {
        WireSpanIs(c, w, owned, d);
        IntervalCovers(w, d, e, t);
      }
    }
  }

  lemma ModelSpanIs(c: Context, w: Window, t: Tallies, owned: seq<Event>, e: Event)
    requires (forall x | x in owned :: OwnedBy(c)(x)) && e in owned && ProvedResult(t, AttemptOf(owned, e), e)
    ensures exists f :: IsEarliest(owned, DispatchedLike(e), f)
    ensures forall f | IsEarliest(owned, DispatchedLike(e), f) ::
              ModelSpan(w, t)(AttemptOf(owned, e), e) == IntervalOf(w, f, e)
  {
    var group := AttemptOf(owned, e);
    forall x | x in owned {
      OneAttempt(c, x, e);
    }
    FilterOfMembers(owned, KeyFor(e), InPhase("dispatch_started"), DispatchedLike(e));
    assert Filter(group, InPhase("dispatch_started")) != [];
    EarliestIs(owned, DispatchedLike(e));
    var first := FirstDispatch(t, group, e);
    assert IsEarliest(owned, DispatchedLike(e), first);
    hide Filter, Members, KeyFor, IntervalOf, OwnedBy, IsEarliest, ListsDispatches;
    forall f | IsEarliest(owned, DispatchedLike(e), f) ensures f == first {
      EarliestUnique(owned, DispatchedLike(e), f, first);
    }
  }

  /** The model union covers exactly the instants between the earliest dispatch of
      an attempt and its proved result. */
  lemma ModelInstants(c: Context, w: Window, t: Tallies, owned: seq<Event>, spans: seq<Interval>)
    requires CollectedAll(ModelSpan(w, t), owned, spans) && forall e | e in owned :: OwnedBy(c)(e)
    ensures forall instant :: instant in Covered(spans) <==> InModel(w, t, owned, instant)
  {
    hide IntervalOf, AttemptOf, Span, OwnedBy, Between, Covered, IsEarliest, CollectedAll, ProvedResult;
    forall instant ensures instant in Covered(spans) <==> InModel(w, t, owned, instant) {
      CoveredBySome(ModelSpan(w, t), owned, spans, instant);
      if instant in Covered(spans) {
        var e, x :| e in owned && ModelSpan(w, t)(AttemptOf(owned, e), e) == Some(x)
            && instant in Span(x.start, x.finish);
        ModelSpanIs(c, w, t, owned, e);
        var f :| IsEarliest(owned, DispatchedLike(e), f);
        IntervalCovers(w, f, e, instant);
      }
      if InModel(w, t, owned, instant) {
        var e, f :| e in owned && ProvedResult(t, AttemptOf(owned, e), e) && IsEarliest(owned, DispatchedLike(e), f)
            && Between(w, f, e, instant);
        ModelSpanIs(c, w, t, owned, e);
        IntervalCovers(w, f, e, instant);
      }
    }
  }
}
