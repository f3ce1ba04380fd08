/** The one pass that assigns every usage row of the log to at most one
    accounting class of a task, and the token sums over the classes
    (scripts/session-comparison.ts, the row loop of measureAcceptedTask). */
module TaskRows {
  import opened ApprovalClosure
  import opened Chains
  import opened Identifiers
  import opened Intervals
  import opened LastOwner
  import opened Listings
  import opened Usage
  import Noticing = NoticingUsage
  import Projection = ProjectionUsage

  // ---------------------------------------------------------------- attempt bindings

  ghost function Bindings(initial: map<string, string>, binds: seq<(string, string)>): set<(string, string)> {
    (set id | id in initial :: (id, initial[id])) + (set b | b in binds)
  }

  /** An attempt that two sources claim belongs to neither: `bound` holds the
      attempts that all claims agree on, and `conflicting` the others. */
  ghost predicate Settled(seen: set<(string, string)>, bound: map<string, string>, conflicting: set<string>) {
    && conflicting == ContestedKeys(seen)
    && (forall id | id in bound :: (id, bound[id]) in seen && id !in conflicting)
    && (forall p | p in seen && p.0 !in conflicting :: p.0 in bound && bound[p.0] == p.1)
  }

  lemma BindStep(seen: set<(string, string)>, bound: map<string, string>, conflicting: set<string>, id: string,
      key: string)
    requires Settled(seen, bound, conflicting)
    ensures var clash := id in conflicting || (id in bound && bound[id] != key);
            Settled(seen + {(id, key)}, if clash then bound - {id} else bound[id := key],
                    if clash then conflicting + {id} else conflicting)
  {
  }

  lemma FirstBindings(initial: map<string, string>)
    ensures Settled(Bindings(initial, []), initial, {})
  {
  }

  method BindUsageAttempts(initial: map<string, string>, binds: seq<(string, string)>)
      returns (bound: map<string, string>, conflicting: set<string>)
    ensures Settled(Bindings(initial, binds), bound, conflicting)
  {
    hide Settled;
    bound, conflicting := initial, {};
    FirstBindings(initial);
    for n := 0 to |binds|
      invariant Settled(Bindings(initial, binds[..n]), bound, conflicting)
    {
      var (id, key) := binds[n];
      BindStep(Bindings(initial, binds[..n]), bound, conflicting, id, key);
      assert binds[..n + 1] == binds[..n] + [(id, key)];
      assert Bindings(initial, binds[..n + 1]) == Bindings(initial, binds[..n]) + {(id, key)};
      if id in conflicting || (id in bound && bound[id] != key) {
        bound, conflicting := bound - {id}, conflicting + {id};
      } else {
        bound := bound[id := key];
      }
    }
    assert binds[..|binds|] == binds;
  }

  // ---------------------------------------------------------------- one row

  /** What the task knows when it reads the log: its sources by key, the source
      of each attempt, the worker sources, the parent of each source,
      and everything that some claim mentions. */
  datatype Task = Task(
    sessionId: string, sourceByAccepted: map<string, nat>, sourceByAttempt: map<string, string>,
    workers: set<string>, parents: map<string, string>,
    claimedAccepted: set<string>, claimedAttempts: set<string>, workflowRuns: set<string>, windows: seq<Interval>)
  {
    /** The source that the row's trace names, and the source of its attempt. */
    function TraceSource(row: UsageRow): Option<nat> {
      var key := row.AcceptedSource().GetOr("");
      if key in sourceByAccepted then Some(sourceByAccepted[key]) else None
    }

    function AttemptSource(row: UsageRow): Option<string> {
      var id := row.Attempt();
      if id.Some? && id.value in sourceByAttempt then Some(sourceByAttempt[id.value]) else None
    }

    predicate Claims(row: UsageRow) {
      || TraceSource(row).Some? || AttemptSource(row).Some?
      || row.AcceptedSource().GetOr("") in claimedAccepted
      || (row.Attempt().Some? && row.Attempt().value in claimedAttempts)
    }

    /** The trace names a source of the task, its turn, and an attempt of that
        source's lineage; a worker's rows must name the worker itself. */
    ghost predicate Traces(row: UsageRow) {
      var source, owner := TraceSource(row), AttemptSource(row);
      && source.Some? && owner.Some? && row.AcceptedSource().Some?
      && row.LogicalTurn() == Some("turn:" + Decimal(source.value))
      && (if owner.value in workers then row.AcceptedSource().value == owner.value
          else Reaches(ParentStep(parents), owner, row.AcceptedSource().value))
    }

    predicate RunLevel(row: UsageRow) {
      row.source in workflowRuns || row.AcceptedSource().GetOr("") in workflowRuns
    }

    /** The trace names another accepted source exactly. */
    predicate Foreign(row: UsageRow) {
      && row.AcceptedSource().Some?
      && var other := ParseSource(row.AcceptedSource().value);
      && other.Some? && 0 < other.value.seqNo <= MAX_SAFE_INTEGER
      && row.LogicalTurn() == Some("turn:" + Decimal(other.value.seqNo))
    }

    predicate InWindow(row: UsageRow) {
      row.at.Some? && exists w :: w in windows && w.start <= row.at.value <= w.finish
    }
  }

  /** The two selections over the same log. */
  datatype Selections = Selections(projectionExact: set<nat>, projectionUnproven: set<nat>, proactiveExact: set<nat>,
      proactiveUnproven: set<nat>)

  datatype Class = ProjectionExact | ProjectionUnproven | ProactiveExact | ProactiveUnproven | TraceProved
    | TraceUnproved | RunLevelUnproved | LegacyWindow | UnscopedWindow | Ignored
  {
    predicate Exact() {
      ProjectionExact? || ProactiveExact? || TraceProved?
    }

    predicate Unproven() {
      ProjectionUnproven? || ProactiveUnproven? || TraceUnproved? || RunLevelUnproved?
    }
  }

  method Classify(t: Task, s: Selections, i: nat, row: UsageRow) returns (class_: Class)
    ensures class_ == ClassOf(t, s, i, row)
  {
    if i in s.projectionExact { return ProjectionExact; }
    if i in s.projectionUnproven { return ProjectionUnproven; }
    if i in s.proactiveExact { return ProactiveExact; }
    if i in s.proactiveUnproven { return ProactiveUnproven; }
    if t.Claims(row) {
      var source, owner := t.TraceSource(row), t.AttemptSource(row);
      if source.None? || owner.None? || row.LogicalTurn() != Some("turn:" + Decimal(source.value))
          || row.AcceptedSource().None? {
        return TraceUnproved;
      }
      var proved := row.AcceptedSource().value == owner.value;
      if owner.value !in t.workers {
        proved := IsUsageAncestor(t.parents, row.AcceptedSource().value, owner.value);
      }
      return if proved then TraceProved else TraceUnproved;
    }
    if t.RunLevel(row) { return RunLevelUnproved; }
    if t.Foreign(row) || !t.InWindow(row) { return Ignored; }
    if row.source == t.sessionId || row.AcceptedSource() == Some(t.sessionId) { return LegacyWindow; }
    return if row.source == "unknown" || row.kind == "other" then UnscopedWindow else Ignored;
  }

  /** The selections come first, a claim on the task comes before the time window,
      and a window never claims a row that names its own exact source. */
  ghost function ClassOf(t: Task, s: Selections, i: nat, row: UsageRow): Class {
    if i in s.projectionExact then ProjectionExact
    else if i in s.projectionUnproven then ProjectionUnproven
    else if i in s.proactiveExact then ProactiveExact
    else if i in s.proactiveUnproven then ProactiveUnproven
    else if t.Claims(row) then (if t.Traces(row) then TraceProved else TraceUnproved)
    else if t.RunLevel(row) then RunLevelUnproved
    else if t.Foreign(row) || !t.InWindow(row) then Ignored
    else if row.source == t.sessionId || row.AcceptedSource() == Some(t.sessionId) then LegacyWindow
    else if row.source == "unknown" || row.kind == "other" then UnscopedWindow
    else Ignored
  }

  /** The accepted source that the row's trace names; none counts as the empty text. */
  ghost function NamedSource(row: UsageRow): string {
    match row.trace
    case Some(trace) => (match trace.acceptedSource case Some(key) => key case None => "")
    case None => ""
  }

  /** The row names a source or an attempt that the task knows or that is claimed. */
  ghost predicate NamesTask(t: Task, row: UsageRow) {
    || NamedSource(row) in t.sourceByAccepted.Keys + t.claimedAccepted
    || exists trace, id :: row.trace == Some(trace) && trace.attemptId == Some(id)
                           && id in t.sourceByAttempt.Keys + t.claimedAttempts
  }

  /** The row names exactly some accepted source and its turn. */
  ghost predicate NamesOther(row: UsageRow) {
    exists trace, key, session, n: nat ::
      && row.trace == Some(trace) && trace.acceptedSource == Some(key)
      && trace.logicalTurnId == Some("turn:" + Decimal(n))
      && ParseSource(key) == Some(Source(session, n)) && 0 < n <= MAX_SAFE_INTEGER
  }

  /** What becomes of a row that neither selection takes: a claim on the task comes
      first, then one on a workflow run, and only then does a row count by time:
      inside a window, unless it names an exact source. */
  lemma RowClasses(t: Task, s: Selections, i: nat, row: UsageRow)
    requires i !in s.projectionExact + s.projectionUnproven + s.proactiveExact + s.proactiveUnproven
    ensures ClassOf(t, s, i, row) in {TraceProved, TraceUnproved} <==> NamesTask(t, row)
    ensures ClassOf(t, s, i, row) == RunLevelUnproved <==>
              !NamesTask(t, row) && (row.source in t.workflowRuns || NamedSource(row) in t.workflowRuns)
    ensures ClassOf(t, s, i, row) in {LegacyWindow, UnscopedWindow} ==>
              && !NamesTask(t, row) && !NamesOther(row)
              && exists at, w :: row.at == Some(at) && w in t.windows && w.start <= at <= w.finish
    ensures !NamesTask(t, row) && row.source !in t.workflowRuns && NamedSource(row) !in t.workflowRuns
            && !NamesOther(row)
            && (exists at, w :: row.at == Some(at) && w in t.windows && w.start <= at <= w.finish) ==>
              && (ClassOf(t, s, i, row) == LegacyWindow <==>
                    row.source == t.sessionId || exists trace ::
                      row.trace == Some(trace) && trace.acceptedSource == Some(t.sessionId))
              && (ClassOf(t, s, i, row) == UnscopedWindow <==>
                    ClassOf(t, s, i, row) != LegacyWindow && (row.source == "unknown" || row.kind == "other"))
  {
    ClaimsIs(t, row);
    OtherIs(t, row);
    hide Task.Claims, NamesTask, Task.Foreign, NamesOther, Task.Traces;
    if t.InWindow(row) {
      assert row.at == Some(row.at.value);
    }
    if row.trace.Some? {
      assert row.trace == Some(row.trace.value);
    }
  }

  lemma ClaimsIs(t: Task, row: UsageRow)
    ensures t.Claims(row) <==> NamesTask(t, row)
  {
    if row.Attempt().Some? {
      assert row.trace == Some(row.trace.value) && row.trace.value.attemptId == Some(row.Attempt().value);
    }
  }

  lemma OtherIs(t: Task, row: UsageRow)
    ensures t.Foreign(row) <==> NamesOther(row)
  {
    hide ParseSource, Decimal;
    if t.Foreign(row) {
      var key := row.AcceptedSource().value;
      var other := ParseSource(key).value;
      assert row.trace == Some(row.trace.value) && row.trace.value.acceptedSource == Some(key);
      assert ParseSource(key) == Some(Source(other.sessionId, other.seqNo));
    }
  }

  // ---------------------------------------------------------------- the log

  /** The rows whose class satisfies `p`. */
  ghost function RowsOf(t: Task, s: Selections, usage: seq<UsageRow>, p: Class -> bool): set<nat> {
    RowsBelow(t, s, usage, p, |usage|)
  }

  ghost function RowsBelow(t: Task, s: Selections, usage: seq<UsageRow>, p: Class -> bool, n: nat): set<nat>
    requires n <= |usage|
  {
    set i: nat | i < n && p(ClassOf(t, s, i, usage[i]))
  }

  ghost function Exact(): Class -> bool {
    (k: Class) => k.Exact()
  }

  ghost function Unproven(): Class -> bool {
    (k: Class) => k.Unproven()
  }

  datatype Rows = Rows(exact: seq<nat>, unproven: seq<nat>, legacy: nat, unscoped: nat)

  lemma AscendingNext(indices: set<nat>, n: nat)
    ensures Ascending(indices, n + 1) == Ascending(indices, n) + if n in indices then [n] else []
  {
  }

  lemma {:induction false} AscendingSize(indices: set<nat>, bound: nat)
    requires forall i | i in indices :: i < bound
    ensures |Ascending(indices, bound)| == |indices|
  {
    if bound == 0 {
      assert indices == {};
    } else {
      var rest := indices - {bound - 1};
      AscendingSize(rest, bound - 1);
      AscendingSame(indices, rest, bound - 1);
      assert bound - 1 in indices ==> indices == rest + {bound - 1};
      assert bound - 1 !in indices ==> indices == rest;
    }
  }

  lemma {:induction false} AscendingSame(a: set<nat>, b: set<nat>, bound: nat)
    requires forall i | i < bound :: i in a <==> i in b
    ensures Ascending(a, bound) == Ascending(b, bound)
  {
    if bound > 0 {
      AscendingSame(a, b, bound - 1);
    }
  }

  method AssignRows(t: Task, s: Selections, usage: seq<UsageRow>) returns (rows: Rows)
    ensures rows.exact == Ascending(RowsOf(t, s, usage, Exact()), |usage|)
    ensures rows.unproven == Ascending(RowsOf(t, s, usage, Unproven()), |usage|)
    ensures rows.legacy == |RowsOf(t, s, usage, (k: Class) => k == LegacyWindow)|
    ensures rows.unscoped == |RowsOf(t, s, usage, (k: Class) => k == UnscopedWindow)|
  {
    hide ClassOf;
    ghost var exact, unproven := RowsOf(t, s, usage, Exact()), RowsOf(t, s, usage, Unproven());
    ghost var legacy, unscoped := RowsOf(t, s, usage, (k: Class) => k == LegacyWindow),
    RowsOf(t, s, usage, (k: Class) => k == UnscopedWindow);
    rows := Rows([], [], 0, 0);
    for n := 0 to |usage|
      invariant rows.exact == Ascending(exact, n) && rows.unproven == Ascending(unproven, n)
      invariant rows.legacy == |Ascending(legacy, n)| && rows.unscoped == |Ascending(unscoped, n)|
    {
      var k := Classify(t, s, n, usage[n]);
      AscendingNext(exact, n);
      AscendingNext(unproven, n);
      AscendingNext(legacy, n);
      AscendingNext(unscoped, n);
      if k.Exact() {
        rows := rows.(exact := rows.exact + [n]);
      } else if k.Unproven() {
        rows := rows.(unproven := rows.unproven + [n]);
      } else if k == LegacyWindow {
        rows := rows.(legacy := rows.legacy + 1);
      } else if k == UnscopedWindow {
        rows := rows.(unscoped := rows.unscoped + 1);
      }
    }
    AscendingSize(legacy, |usage|);
    AscendingSize(unscoped, |usage|);
  }

  // ---------------------------------------------------------------- tokens

  datatype Tokens = Tokens(prompt: real, cached: real, uncached: real, output: real)
  {
    function Plus(other: Tokens): Tokens {
      Tokens(prompt + other.prompt, cached + other.cached, uncached + other.uncached, output + other.output)
    }
  }

  const NO_TOKENS := Tokens(0.0, 0.0, 0.0, 0.0)

  function TokensOf(accounting: UsageRow -> Accounting, row: UsageRow): Tokens {
    Tokens(accounting(row).promptTokens, accounting(row).cachedReadTokens, accounting(row).uncachedInputTokens,
           if row.outputTokens > 0.0 then row.outputTokens else 0.0)
  }

  /** The tokens of the first `n` rows whose index is in `indices`. */
  ghost function Total(accounting: UsageRow -> Accounting, usage: seq<UsageRow>, indices: set<nat>, n: nat): Tokens
    requires n <= |usage|
  {
    if n == 0 then NO_TOKENS
    else
      var before := Total(accounting, usage, indices, n - 1);
      if n - 1 in indices then before.Plus(TokensOf(accounting, usage[n - 1])) else before
  }

  ghost function TokensOver(accounting: UsageRow -> Accounting, usage: seq<UsageRow>, rows: seq<nat>): Tokens
    requires forall k | 0 <= k < |rows| :: rows[k] < |usage|
  {
    if rows == [] then NO_TOKENS
    else TokensOver(accounting, usage, rows[..|rows| - 1]).Plus(TokensOf(accounting, usage[rows[|rows| - 1]]))
  }

  method MeasureRows(accounting: UsageRow -> Accounting, usage: seq<UsageRow>, rows: seq<nat>) returns (tokens: Tokens)
    requires forall k | 0 <= k < |rows| :: rows[k] < |usage|
    ensures tokens == TokensOver(accounting, usage, rows)
  {
    tokens := NO_TOKENS;
    for n := 0 to |rows|
      invariant tokens == TokensOver(accounting, usage, rows[..n])
    {
      assert rows[..n + 1][..n] == rows[..n];
      tokens := tokens.Plus(TokensOf(accounting, usage[rows[n]]));
    }
    assert rows[..|rows|] == rows;
  }

  /** An amount of the row at an index of the log. */
  ghost function Of(usage: seq<UsageRow>, amount: UsageRow -> real): nat -> real {
    (i: nat) => if i < |usage| then amount(usage[i]) else 0.0
  }

  /** Each count is the sum of its own accounting field over the listed rows, and
      the output that of the positive output tokens. */
  ghost predicate Sums(tokens: Tokens, accounting: UsageRow -> Accounting, usage: seq<UsageRow>, rows: seq<nat>) {
    && tokens.prompt == Sum(rows, Of(usage, row => accounting(row).promptTokens))
    && tokens.cached == Sum(rows, Of(usage, row => accounting(row).cachedReadTokens))
    && tokens.uncached == Sum(rows, Of(usage, row => accounting(row).uncachedInputTokens))
    && tokens.output
       == Sum(rows, Of(usage, (row: UsageRow) => if row.outputTokens > 0.0 then row.outputTokens else 0.0))
  }

  lemma {:induction false} TokensAreSums(accounting: UsageRow -> Accounting, usage: seq<UsageRow>, rows: seq<nat>)
    requires forall k | 0 <= k < |rows| :: rows[k] < |usage|
    ensures Sums(TokensOver(accounting, usage, rows), accounting, usage, rows)
  {
    if rows != [] {
      TokensAreSums(accounting, usage, rows[..|rows| - 1]);
    }
  }

  lemma {:induction false} SumIsTotal(accounting: UsageRow -> Accounting, usage: seq<UsageRow>, indices: set<nat>,
      n: nat)
    requires n <= |usage|
    ensures forall k | 0 <= k < |Ascending(indices, n)| :: Ascending(indices, n)[k] < n
    ensures TokensOver(accounting, usage, Ascending(indices, n)) == Total(accounting, usage, indices, n)
  {
    if n > 0 {
      SumIsTotal(accounting, usage, indices, n - 1);
      AscendingNext(indices, n - 1);
      assert n - 1 in indices ==> Ascending(indices, n)[..|Ascending(indices, n)| - 1] == Ascending(indices, n - 1);
    }
  }

  lemma {:induction false} TotalAdds(accounting: UsageRow -> Accounting, usage: seq<UsageRow>, a: set<nat>,
      b: set<nat>, n: nat)
    requires n <= |usage| && a !! b
    ensures Total(accounting, usage, a + b, n) == Total(accounting, usage, a, n).Plus(Total(accounting, usage, b, n))
  {
    if n > 0 {
      TotalAdds(accounting, usage, a, b, n - 1);
    }
  }

  // ---------------------------------------------------------------- the whole task

  datatype Measurement = Measurement(
    exactUsageRecords: nat, projectionExactRecords: nat, proactiveExactRecords: nat,
    exact: Tokens, unprovenRecords: nat, unproven: Tokens, legacyWindowRecords: nat, unscopedWindowRecords: nat)

  /** Rows that the selections exclude from each other: no projection row is an
      exact noticing row, because the two job namespaces are disjoint. */
  ghost predicate Disjoint(s: Selections, usage: seq<UsageRow>) {
    && s.projectionExact !! s.projectionUnproven
    && s.proactiveExact !! s.proactiveUnproven
    && (s.projectionExact + s.projectionUnproven) !! s.proactiveExact
    && (forall i | i in s.projectionExact + s.proactiveExact :: i < |usage|)
  }

  lemma SelectedClass(t: Task, s: Selections, i: nat, row: UsageRow)
    ensures ClassOf(t, s, i, row) == ProjectionExact <==> i in s.projectionExact
    ensures ClassOf(t, s, i, row) == ProactiveExact
            <==> i in s.proactiveExact && i !in s.projectionExact && i !in s.projectionUnproven
  {
  }

  /** The exact rows of a task are its exact projection rows, its exact noticing
      rows, and the rows that a trace proves, each counted once. */
  lemma ExactRowsAddUp(t: Task, s: Selections, usage: seq<UsageRow>)
    requires Disjoint(s, usage)
    ensures |RowsOf(t, s, usage, Exact())|
            == |s.projectionExact| + |s.proactiveExact| + |RowsOf(t, s, usage, (k: Class) => k == TraceProved)|
  {
    var traced := RowsOf(t, s, usage, (k: Class) => k == TraceProved);
    forall i | 0 <= i < |usage| {
      SelectedClass(t, s, i, usage[i]);
    }
    hide ClassOf;
    assert RowsOf(t, s, usage, Exact()) == s.projectionExact + s.proactiveExact + traced;
    assert traced !! (s.projectionExact + s.proactiveExact);
  }

  /** A row has one class: the four counted kinds and the rest make up the log. */
  lemma {:induction false} ClassesPartition(t: Task, s: Selections, usage: seq<UsageRow>, n: nat)
    requires n <= |usage|
    ensures |RowsBelow(t, s, usage, Exact(), n)| + |RowsBelow(t, s, usage, Unproven(), n)|
            + |RowsBelow(t, s, usage, (k: Class) => k == LegacyWindow, n)|
                + |RowsBelow(t, s, usage, (k: Class) => k == UnscopedWindow, n)|
            + |RowsBelow(t, s, usage, (k: Class) => k == Ignored, n)| == n
  {
    hide ClassOf, RowsBelow;
    if n == 0 {
      NoRowsBelow(t, s, usage);
    } else {
      ClassesPartition(t, s, usage, n - 1);
      OneMoreRow(t, s, usage, Exact(), n - 1);
      OneMoreRow(t, s, usage, Unproven(), n - 1);
      OneMoreRow(t, s, usage, (k: Class) => k == LegacyWindow, n - 1);
      OneMoreRow(t, s, usage, (k: Class) => k == UnscopedWindow, n - 1);
      OneMoreRow(t, s, usage, (k: Class) => k == Ignored, n - 1);
    }
  }

  lemma NoRowsBelow(t: Task, s: Selections, usage: seq<UsageRow>)
    ensures forall p :: RowsBelow(t, s, usage, p, 0) == {}
  {
  }

  lemma RowsAreRows(t: Task, s: Selections, usage: seq<UsageRow>)
    ensures forall p, i | i in RowsOf(t, s, usage, p) :: i < |usage|
    ensures RowsOf(t, s, usage, Exact()) !! RowsOf(t, s, usage, Unproven())
  {
  }

  lemma OneMoreRow(t: Task, s: Selections, usage: seq<UsageRow>, p: Class -> bool, n: nat)
    requires n < |usage|
    ensures |RowsBelow(t, s, usage, p, n + 1)| == |RowsBelow(t, s, usage, p, n)| + if p(ClassOf(t, s, n, usage[n]))
            then 1 else 0
  {
    hide ClassOf;
    if p(ClassOf(t, s, n, usage[n])) {
      assert RowsBelow(t, s, usage, p, n + 1) == RowsBelow(t, s, usage, p, n) + {n};
    } else {
      assert RowsBelow(t, s, usage, p, n + 1) == RowsBelow(t, s, usage, p, n);
    }
  }

  lemma NoticingSelected(sha256: string -> string, accepted: set<string>, usage: seq<UsageRow>,
      jobs: seq<Noticing.Participant>, ids: seq<string>)
    ensures var f := NoticingFormats(sha256);
            var evidence := Noticing.JobEvidence(f, jobs, accepted);
            var exact := Noticing.ExactRows(usage, evidence, f);
            && (forall i | i in exact :: i < |usage| && NoticingJobId(usage[i].source))
            && (forall i | i in Noticing.RelatedRows(f, usage, Noticing.Claims(f, jobs, ids), evidence) :: i < |usage|)
  {
  }

  lemma ProjectionSelected(sha256: string -> string, accepted: set<string>, usage: seq<UsageRow>,
      jobs: seq<Projection.Participant>, ids: seq<string>)
    ensures var f := ApprovalProjectionFormats(sha256);
            var claims := Projection.Claims(f, ids);
            && Projection.ExactRows(f, usage, Projection.JobEvidence(f, jobs, |jobs|, claims, accepted))
               <= Projection.ClaimedRows(usage, claims)
            && (forall i | i in Projection.ClaimedRows(usage, claims) ::
                  i < |usage| && ApprovalProjectionJobId(usage[i].source))
  {
  }

  lemma SelectionsAreDisjoint(usage: seq<UsageRow>, noticed: set<nat>, related: set<nat>, projected: set<nat>,
      claimed: set<nat>, s: Selections)
    requires forall i | i in noticed :: i < |usage| && NoticingJobId(usage[i].source)
    requires forall i | i in claimed :: i < |usage| && ApprovalProjectionJobId(usage[i].source)
    requires projected <= claimed
    requires s == Selections(projected, claimed - projected, noticed, related - noticed)
    ensures Disjoint(s, usage)
  {
  }

  /** The evidence of the two job namespaces, as the readers collected it. */
  datatype Jobs = Jobs(noticing: seq<Noticing.Participant>, noticingIds: seq<string>,
      projection: seq<Projection.Participant>, projectionIds: seq<string>)

  /** What the two selections mean, apart from how they are computed. */
  ghost function SelectionsFor(sha256: string -> string, accepted: set<string>, usage: seq<UsageRow>,
      jobs: Jobs): Selections {
    var n, p := NoticingFormats(sha256), ApprovalProjectionFormats(sha256);
    var evidence := Noticing.JobEvidence(n, jobs.noticing, accepted);
    var noticed, related := Noticing.ExactRows(usage, evidence, n),
    Noticing.RelatedRows(n, usage, Noticing.Claims(n, jobs.noticing, jobs.noticingIds), evidence);
    var claims := Projection.Claims(p, jobs.projectionIds);
    var projected := Projection.ExactRows(p, usage,
            Projection.JobEvidence(p, jobs.projection, |jobs.projection|, claims, accepted));
    Selections(projected, Projection.ClaimedRows(usage, claims) - projected, noticed, related - noticed)
  }

  lemma SelectionsExclude(sha256: string -> string, accepted: set<string>, usage: seq<UsageRow>, jobs: Jobs)
    ensures Disjoint(SelectionsFor(sha256, accepted, usage, jobs), usage)
  {
    var n, p := NoticingFormats(sha256), ApprovalProjectionFormats(sha256);
    NoticingSelected(sha256, accepted, usage, jobs.noticing, jobs.noticingIds);
    ProjectionSelected(sha256, accepted, usage, jobs.projection, jobs.projectionIds);
    var evidence := Noticing.JobEvidence(n, jobs.noticing, accepted);
    var claims := Projection.Claims(p, jobs.projectionIds);
    var projected := Projection.ExactRows(p, usage,
            Projection.JobEvidence(p, jobs.projection, |jobs.projection|, claims, accepted));
    hide NoticingFormats, ApprovalProjectionFormats, Noticing.ExactRows, Noticing.RelatedRows, Noticing.Claims,
    Noticing.JobEvidence, Disjoint;
    hide Projection.Claims, Projection.ExactRows, Projection.JobEvidence, Projection.ClaimedRows, NoticingJobId,
    ApprovalProjectionJobId;
    SelectionsAreDisjoint(usage, Noticing.ExactRows(usage, evidence, n),
                          Noticing.RelatedRows(n, usage, Noticing.Claims(n, jobs.noticing, jobs.noticingIds), evidence),
                          projected, Projection.ClaimedRows(usage, claims),
                          SelectionsFor(sha256, accepted, usage, jobs));
  }

  method SelectRows(sha256: string -> string, accepted: set<string>, usage: seq<UsageRow>, jobs: Jobs)
      returns (s: Selections)
    ensures s == SelectionsFor(sha256, accepted, usage, jobs)
  {
    var n, p := NoticingFormats(sha256), ApprovalProjectionFormats(sha256);
    var proactiveExact, proactiveUnproven, proactiveIssues :=
      Noticing.SelectNoticingUsage(n, jobs.noticing, jobs.noticingIds, accepted, usage);
    var projectionExact, projectionUnproven, projectionIssues :=
      Projection.SelectProjectionUsage(p, jobs.projection, jobs.projectionIds, accepted, usage);
    s := Selections(set i | i in projectionExact, set i | i in projectionUnproven, set i | i in proactiveExact,
                    set i | i in proactiveUnproven);
    ghost var selected := SelectionsFor(sha256, accepted, usage, jobs);
    NoticingSelected(sha256, accepted, usage, jobs.noticing, jobs.noticingIds);
    ProjectionSelected(sha256, accepted, usage, jobs.projection, jobs.projectionIds);
    hide NoticingFormats, ApprovalProjectionFormats, Noticing.ExactRows, Noticing.RelatedRows, Noticing.Claims,
    Noticing.JobEvidence;
    hide Projection.Claims, Projection.ExactRows, Projection.JobEvidence, Projection.ClaimedRows, NoticingJobId,
    ApprovalProjectionJobId;
    assert s.projectionExact == selected.projectionExact && s.projectionUnproven == selected.projectionUnproven;
    assert s.proactiveExact == selected.proactiveExact && s.proactiveUnproven == selected.proactiveUnproven;
  }

  /** What the assigned rows say: each row of the log has one place. */
  lemma RowsAddUp(accounting: UsageRow -> Accounting, t: Task, s: Selections, usage: seq<UsageRow>, rows: Rows)
    requires Disjoint(s, usage)
    requires rows.exact == Ascending(RowsOf(t, s, usage, Exact()), |usage|)
    requires rows.unproven == Ascending(RowsOf(t, s, usage, Unproven()), |usage|)
    requires rows.legacy == |RowsOf(t, s, usage, (k: Class) => k == LegacyWindow)|
    requires rows.unscoped == |RowsOf(t, s, usage, (k: Class) => k == UnscopedWindow)|
    ensures |rows.exact| == |s.projectionExact| + |s.proactiveExact|
            + |RowsOf(t, s, usage, (k: Class) => k == TraceProved)|
    ensures |rows.exact| + |rows.unproven| + rows.legacy + rows.unscoped
            + |RowsOf(t, s, usage, (k: Class) => k == Ignored)| == |usage|
    ensures (forall k | 0 <= k < |rows.exact| :: rows.exact[k] < |usage|)
            && (forall k | 0 <= k < |rows.unproven| :: rows.unproven[k] < |usage|)
    ensures |rows.unproven| == |RowsOf(t, s, usage, Unproven())|
    ensures TokensOver(accounting, usage, rows.exact) == Total(accounting, usage, RowsOf(t, s, usage, Exact()), |usage|)
    ensures TokensOver(accounting, usage, rows.unproven)
            == Total(accounting, usage, RowsOf(t, s, usage, Unproven()), |usage|)
    ensures Sums(TokensOver(accounting, usage, rows.exact), accounting, usage, rows.exact)
    ensures Sums(TokensOver(accounting, usage, rows.unproven), accounting, usage, rows.unproven)
    ensures TokensOver(accounting, usage, rows.exact).Plus(TokensOver(accounting, usage, rows.unproven))
            == Total(accounting, usage, RowsOf(t, s, usage, Exact()) + RowsOf(t, s, usage, Unproven()), |usage|)
  {
    hide ClassOf, RowsBelow;
    RowsAreRows(t, s, usage);
    var exact, unproven := RowsOf(t, s, usage, Exact()), RowsOf(t, s, usage, Unproven());
    ExactRowsAddUp(t, s, usage);
    ClassesPartition(t, s, usage, |usage|);
    AscendingSize(exact, |usage|);
    AscendingSize(unproven, |usage|);
    SumIsTotal(accounting, usage, exact, |usage|);
    SumIsTotal(accounting, usage, unproven, |usage|);
    TotalAdds(accounting, usage, exact, unproven, |usage|);
    TokensAreSums(accounting, usage, rows.exact);
    TokensAreSums(accounting, usage, rows.unproven);
  }

  /** Measure a task's usage: the exact records add up, every row of the log has
      one place, and no token of an exact or unproven row is lost or counted twice. */
  method MeasureTaskUsage(sha256: string -> string, accounting: UsageRow -> Accounting, t: Task, accepted: set<string>,
      usage: seq<UsageRow>, jobs: Jobs)
    returns (m: Measurement, rows: Rows)
    ensures var s := SelectionsFor(sha256, accepted, usage, jobs);
            var traced, ignored := RowsOf(t, s, usage, (k: Class) => k == TraceProved),
            RowsOf(t, s, usage, (k: Class) => k == Ignored);
            && rows.exact == Ascending(RowsOf(t, s, usage, Exact()), |usage|)
            && rows.unproven == Ascending(RowsOf(t, s, usage, Unproven()), |usage|)
            && m.projectionExactRecords == |s.projectionExact| && m.proactiveExactRecords == |s.proactiveExact|
            && m.exactUsageRecords == m.projectionExactRecords + m.proactiveExactRecords + |traced|
            && m.exactUsageRecords + m.unprovenRecords + m.legacyWindowRecords + m.unscopedWindowRecords + |ignored|
                == |usage|
            && m.unprovenRecords == |RowsOf(t, s, usage, Unproven())|
            && m.legacyWindowRecords == |RowsOf(t, s, usage, (k: Class) => k == LegacyWindow)|
            && m.unscopedWindowRecords == |RowsOf(t, s, usage, (k: Class) => k == UnscopedWindow)|
            && Sums(m.exact, accounting, usage, rows.exact) && Sums(m.unproven, accounting, usage, rows.unproven)
            && m.exact == Total(accounting, usage, RowsOf(t, s, usage, Exact()), |usage|)
            && m.unproven == Total(accounting, usage, RowsOf(t, s, usage, Unproven()), |usage|)
            && m.exact.Plus(m.unproven)
                == Total(accounting, usage, RowsOf(t, s, usage, Exact()) + RowsOf(t, s, usage, Unproven()), |usage|)
  {
    hide *;
    var s := SelectRows(sha256, accepted, usage, jobs);
    SelectionsExclude(sha256, accepted, usage, jobs);
    rows := AssignRows(t, s, usage);
    RowsAddUp(accounting, t, s, usage, rows);
    var exactTokens := MeasureRows(accounting, usage, rows.exact);
    var unprovenTokens := MeasureRows(accounting, usage, rows.unproven);
    m := Measurement(|rows.exact|, |s.projectionExact|, |s.proactiveExact|, exactTokens, |rows.unproven|,
                     unprovenTokens, rows.legacy, rows.unscoped);
  }
}
