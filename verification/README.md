# Usage accounting: model and proofs

The session-comparison tooling decides which journal events and which rows of
the token-usage log belong to one accepted task. It reads a store that other
processes wrote, so it must not trust it: a row must not be counted twice, a
claim that something else contradicts must not be believed, and a possible cost
must not disappear. This project models that engine, and the request-scoped
configuration snapshot beside it, and proves what the labels and counters it
prints mean.

Events, usage rows and tables are finite sequences and maps of already decoded
values. SHA-256, the cache-accounting arithmetic and the identifier formats are
function parameters, so every result holds for all choices of them; the formats
that the repository uses are defined in `Identifiers`. Where the source walks a
JavaScript `Map` or `Set`, the model visits the keys in an arbitrary order,
which is more than the insertion order of the source. A key that the source
builds with `JSON.stringify` is a tuple.

| files | what they model |
|---|---|
| `Identifiers`, `Json`, `Usage`, `Groups`, `Listings`, `LastOwner`, `Chains`, `RowJoin` | identifiers and source keys, payload values, usage rows, grouping and counting by key, sums over the listings of a set, last-owner conflict detection, chain walks with a visited set, the join of rows with response bindings |
| `NoticingUsage`, `ProjectionUsage`, `PhysicalAttempts`, `NoticingFields`, `ProjectionFields`, `AttemptFields` | the two evidence-join selectors, the journal projection that feeds the second one, and what all three say of the fields they read |
| `ApprovalClosure`, `LeaseChain` | approval continuations, the dispatch-lease walk |
| `WorkerLinks`, `WorkerFields`, `WorkerGraph`, `WorkerLineage`, `WorkerExample`, `Lineage` | worker discovery: the proof of one link, and what it says of the tables, the traversal, which workers survive, and one store where a claim loses a worker; pruning and merging |
| `Windows`, `Intervals`, `TaskTime` | accepted-source windows, the interval sweep, task and approval-wait time |
| `ModelTiming`, `TimingSums`, `TimingFields`, `StepFields`, `Transport`, `TransportSpans`, `TransportFields`, `LocalAdapters`, `AdapterFields` | timing, transport and adapter counters, and what each sum, span, join and check says of the journal fields |
| `Coverage`, `Bridges`, `Completeness`, `CoverageFields`, `CompletenessFields` | the coverage of main-model calls and responses by usage rows, the bridges between provider and host identities, and the completeness status |
| `TaskScope`, `TaskRows` | the maps that say which source owns an attempt, and the one pass that gives each usage row its class |
| `EnvFiles`, `ConfigSnapshot` | layered environment files and the two-half request snapshot |

Most passes are methods with the loops of the source, proved against a
declarative specification (a predicate over all inputs, a fixpoint, a set), and
the properties below are stated over that specification. Where a method and its
specification share a function, a lemma in the module itself or in one of the
`...Fields` and `TransportSpans` modules says what the result is in terms of the
raw columns and payload fields, without naming that function.

## Model

| member | source | states |
|---|---|---|
| LastOwner.ObserveOwner | scripts/lib/accepted-task-noticing-usage.ts:69-79 | comparing each owner with only the last recorded one marks exactly the owners that share an identity with a different owner |
| LastOwner.ObserveIdentity | scripts/session-comparison.ts:1351-1356 | where the identity is kept instead, the same comparison finds exactly the identities that two owners name |
| LastOwner.UncontestedIffFunctional | scripts/lib/accepted-task-noticing-usage.ts:69-79 | nothing is ever marked if and only if each identity has one owner |
| Identifiers.JobNamespacesDisjoint | scripts/lib/accepted-task-approval-projection-usage.ts:38-39 | no string is both a noticing job and an approval-projection job |
| Identifiers.FormatsAre | scripts/lib/accepted-task-noticing-usage.ts:22-26 | a digest is 64 hexadecimal digits; a job is its prefix before the text of a UUID |
| Identifiers.SourceKeyInjective | scripts/session-comparison.ts:1632 | two accepted sources never share a key, whatever characters their session ids hold |
| Identifiers.SourceKeyReadsBack | scripts/session-comparison.ts:2622-2626 | the key of a positive source reads back as that source |
| RowJoin.Certify | scripts/lib/accepted-task-noticing-usage.ts:103-108 | visiting the bindings in any order certifies exactly the rows that are the only match of a usable binding; duplicates and unused bindings are told apart exactly |
| NoticingUsage.ReadJobs | scripts/lib/accepted-task-noticing-usage.ts:45-62 | the first pass keeps each job once, what it leaves valid are exactly the jobs that are named once and well formed, and a participant is reported if and only if its identity, its repetition or its own content asks for it |
| NoticingUsage.FindConflicts | scripts/lib/accepted-task-noticing-usage.ts:65-82 | the second pass, over jobs in any order, ends with the last-owner maps of all bindings of valid jobs and marks of exactly the contested ones |
| NoticingUsage.CollectRows | scripts/lib/accepted-task-noticing-usage.ts:86-102 | the related rows are those of a claimed job or of a call that a valid job owns, and each row is matched with the one binding it proves |
| NoticingUsage.SelectNoticingUsage | scripts/lib/accepted-task-noticing-usage.ts:31-112 | the exact indices are the rows that alone prove an uncontested binding, the unproven ones are the other related rows, and every kind of issue is reported if and only if its cause exists |
| NoticingUsage.SelectionIsOrderFree | scripts/lib/accepted-task-noticing-usage.ts:45-82 | permuting the job list changes neither the exact nor the related rows |
| NoticingUsage.ExactResponsesDistinct | scripts/lib/accepted-task-noticing-usage.ts:96-106 | two different exact rows have different response digests |
| NoticingUsage.SelectionPartitionsRelated | scripts/lib/accepted-task-noticing-usage.ts:88-106 | every exact row is a related row and its source is a noticing job |
| NoticingUsage.ProofUnique | scripts/lib/accepted-task-noticing-usage.ts:97-100 | a row proves at most one binding |
| NoticingFields.ExactRowsAreSole | scripts/lib/accepted-task-noticing-usage.ts:45-106 | a row is exact if and only if it is the one row that names, in its own fields, a response of a participant that is valid and the only one with its id, where no other valid participant has the response or a call of that job |
| ProjectionUsage.ReadAttempts | scripts/lib/accepted-task-approval-projection-usage.ts:79-106 | one job's attempts add exactly its owned attempts to the evidence, refuse repeated or malformed ones, invalidate both jobs of every shared call, response and receipt, and are reported exactly |
| ProjectionUsage.ReadJobs | scripts/lib/accepted-task-approval-projection-usage.ts:60-109 | the one pass leaves a ledger that agrees with the evidence of all admitted jobs, and reports exactly the participants that are unnamed, repeated, without their parent, or incomplete |
| ProjectionUsage.InvalidExactly | scripts/lib/accepted-task-approval-projection-usage.ts:74-104 | a job is invalid if and only if it is faulty, shares its projection, or owns an attempt that clashes with another one in call, response or receipt |
| ProjectionUsage.SelectProjectionUsage | scripts/lib/accepted-task-approval-projection-usage.ts:45-137 | the exact indices are the claimed rows that alone prove a response of a valid job, the unproven ones are the other claimed rows, and every kind of issue is reported if and only if its cause exists |
| ProjectionUsage.ProofUnique | scripts/lib/accepted-task-approval-projection-usage.ts:123-126 | at most one binding of a valid job ever matches a row |
| ProjectionUsage.ExactResponsesDistinct | scripts/lib/accepted-task-approval-projection-usage.ts:122-132 | two different exact rows have different response digests |
| ProjectionUsage.ExactRowsAreClaimed | scripts/lib/accepted-task-approval-projection-usage.ts:113-132 | every exact row is a claimed row and its source is an approval-projection job |
| ProjectionUsage.SelectionIsOrderFree | scripts/lib/accepted-task-approval-projection-usage.ts:60-137 | with distinct job ids, permuting the jobs changes no exact row |
| ProjectionFields.ExactRowsAreSole | scripts/lib/accepted-task-approval-projection-usage.ts:60-132 | a row is exact if and only if it is the one row of the writer that names, in its own fields, an answered attempt of a participant that is placed after its parent, has no flaw, and shares neither its projection nor a call, response or receipt of any of its attempts |
| PhysicalAttempts.ProjectPhysicalAttempts | scripts/lib/accepted-task-approval-projection-participants.ts:123-169 | one record for each owned call and attempt, none twice, each describing exactly its own journal rows; the three issues are raised if and only if their cause exists |
| PhysicalAttempts.ExactDispatchesCorrespond | scripts/lib/accepted-task-approval-projection-participants.ts:141-153 | in an exact attempt the listed and the observed dispatches correspond one to one, although only one inclusion and the counts are checked |
| AttemptFields.AttemptOutcome | scripts/lib/accepted-task-approval-projection-participants.ts:136-163 | an attempt is unfinished unless it has exactly one end, failed if and only if that end says so, and returned if and only if it has its response; its dispatches are counted |
| AttemptFields.AttemptLate | scripts/lib/accepted-task-approval-projection-participants.ts:155-161 | it is late if and only if a readable clock shows a time after the end of the job, and in time if and only if all clocks are readable and none does |
| AttemptFields.AttemptResponse | scripts/lib/accepted-task-approval-projection-participants.ts:141-167 | its response has the receipt, the digest and the output digest of its one result row, between its one start and its one end, which agrees |
| ApprovalClosure.ReadApprovalGraph | scripts/session-comparison.ts:2137-2205 | one ordered pass computes the least fixpoints of both lineages, links each member to a strictly earlier member, gives each continuation its control's approval, resumes and card, and reports exactly the claimed non-members and the dangling resumes |
| ApprovalClosure.ContinuationFields | scripts/session-comparison.ts:2179-2195 | each continuation has the approval of its control, its recorded execution source, the request and resolution times of the card of that approval, and the resumes that deliver to the control, in event order |
| ApprovalClosure.SoleControlIs | scripts/session-comparison.ts:2167-2168 | a control is sole if and only if one input names its approval |
| ApprovalClosure.ClaimedIffPath | scripts/session-comparison.ts:2153-2161 | the claimed sources are exactly those that a path of claims reaches from the root |
| ApprovalClosure.MembersReachRoot | scripts/session-comparison.ts:2184-2186 | the parent chain of every member ends at the root |
| ApprovalClosure.IsAncestor | scripts/session-comparison.ts:2545-2552 | the walk without a visited set terminates when parents are smaller, and answers reachability |
| ApprovalClosure.IsUsageAncestor | scripts/session-comparison.ts:2553-2562 | the walk with a visited set answers reachability over any parent map, cyclic ones included |
| ApprovalClosure.UsageAncestryAgrees | scripts/session-comparison.ts:2502 | on members, the two ancestor relations agree through the source keys |
| Chains.StopSeesAll | scripts/session-comparison.ts:1916-1922 | a chain walk that stops at its first repeated node has visited every reachable node |
| LeaseChain.WalkControls | scripts/session-comparison.ts:1938-1945 | the control walk proves if and only if the controls lead back to the parent source, and breaks if and only if it meets an unreadable store first |
| LeaseChain.WalkLeases | scripts/session-comparison.ts:1914-1950 | the lease walk halts on every table and proves if and only if the first matching lease of the chain has an owned attempt that leads back to the parent |
| LeaseChain.AttemptOwnsParentCall | scripts/session-comparison.ts:1900-1953 | the answer is yes if and only if some child lease proves and no earlier one hits the unreadable store that ends the search |
| LeaseChain.ParentLeaseDecides | scripts/session-comparison.ts:1918-1925 | a row of another call proves, or breaks, exactly as the row does whose scope and lease its two parent columns hold; if one is absent or empty it does neither |
| LeaseChain.CallRowDecides | scripts/session-comparison.ts:1928-1937 | a row of the call proves if and only if its attempt runs in the parent session, is trusted, and its source leads back |
| LeaseChain.ControlDecides | scripts/session-comparison.ts:1938-1945 | the parent source leads back at once; a delivery source of its session leads where its execution source does, and breaks when that is unreadable; no other source does |
| LeaseChain.WalkHasOneEnd | scripts/session-comparison.ts:1938-1945 | no control chain both leads back and breaks |
| LeaseChain.OnlyParentTrustMatters | scripts/session-comparison.ts:1932-1946 | which attempts are trusted matters only for the parent source and for the delivery sources of its session |
| Lineage.Prune | scripts/session-comparison.ts:2110-2122 | deleting until nothing changes ends, in any deletion order, with the greatest stable set of scopes |
| Lineage.StableIsRooted | scripts/session-comparison.ts:2041-2044 | because children are younger than their parents, each scope of a stable set has an unconflicted chain to a root |
| Lineage.PruneIsRooted | scripts/session-comparison.ts:2110-2122 | hence pruning keeps exactly the unconflicted scopes whose parent chain reaches a root: least and greatest fixpoint coincide |
| Lineage.MergeGraphs | scripts/session-comparison.ts:2406-2429 | a merged scope survives if and only if all graphs agree on it and its agreed parents lead to a root; it is then a scope of one of the graphs, with that graph's attempts; every claim of every graph is kept |
| Lineage.MergeIsOrderFree | scripts/session-comparison.ts:2409-2418 | merging the graphs in any order gives the same scopes with the same attempts, and the same claims |
| WorkerLinks.OnlyOwnScopeMatters | scripts/session-comparison.ts:1973-1977 | of all scopes admitted so far, only the parent's own can decide a link |
| WorkerLinks.RootsNeedNoScope | scripts/session-comparison.ts:1974-1975 | a link from a public root does not depend on any scope |
| WorkerLinks.OwnedAttempts | scripts/session-comparison.ts:2059-2072 | a child keeps exactly the attempts whose lease chain proves the parent call |
| WorkerLinks.OwnedIsDispatched | scripts/session-comparison.ts:1932-1936 | a kept attempt was dispatched by an attempt of the parent's session that a public root or the parent's own scope answers for |
| WorkerLinks.ProveLink | scripts/session-comparison.ts:2046-2107 | a link yields a scope if and only if marker, child input, metadata, packet and parent pointer name each other and the marker's attempt is proved; the scope names the child and the parent and holds exactly the proved attempts |
| WorkerFields.LinkIs | scripts/session-comparison.ts:2046-2107 | a link is proved if and only if marker, child input, packet and session metadata hold the same fields, the child answers the parent, the call is recorded as a worker call, and the marker names a proved attempt |
| WorkerFields.NamesAre | scripts/session-comparison.ts:1982-2018 | a parent names exactly the children whose delegated input points at it, or that a marker of its session names |
| WorkerFields.OwnerIs | scripts/session-comparison.ts:2038-2040 | two markers have one owner if and only if their seven fields are equal, where absent and null are alike |
| WorkerFields.VouchedIs | scripts/session-comparison.ts:1973-1977 | an attempt is vouched for if and only if it runs in the parent session, for a public root that answers for it or for the parent and among its own |
| WorkerFields.LeaseIs | scripts/session-comparison.ts:1926-1948 | a lease of the parent session proves a child by the attempt it names, or as its parent lease does |
| WorkerFields.ControlIs | scripts/session-comparison.ts:1938-1945 | the parent source leads back at once, and a public root that is a control leads where the source it executes does; no other source does |
| WorkerFields.SoleLeaseIs | scripts/session-comparison.ts:2061-2067 | an attempt that one lease dispatched is kept if and only if that lease proves the recorded call |
| WorkerGraph.VisitMarker | scripts/session-comparison.ts:2021-2108 | a marker always adds its claims and its owner; its child is in conflict afterwards if and only if it was, is a root, is no younger than the parent, changes owner or fails its proof; a proved child is admitted once |
| WorkerGraph.VisitParent | scripts/session-comparison.ts:1982-2109 | a visit claims every source and attempt that the parent's markers or reciprocal child pointers name, queues the ones that exist, and keeps the records exact: in conflict are the children that some link blames, admitted are those that some link proves |
| WorkerGraph.LendsRight | scripts/session-comparison.ts:1980-2016 | when a source is visited it lends its children its own scope's attempts, unless a failed link or a pointer without a marker already refutes it; a claimed root lends what the claimed roots before it have admitted |
| WorkerGraph.Traverse | scripts/session-comparison.ts:1979-2109 | the traversal halts on every store and visits the least set that holds the roots and is closed under naming; the claims are exactly those named by visited sources, and the records are exact |
| WorkerLineage.RootedIsSurvivor | scripts/session-comparison.ts:2110-2122 | a recorded scope has an unconflicted chain to a root if and only if it survives by recursion on the sequence numbers, and then it is the scope that the recursion gives it |
| WorkerLineage.ReadWorkerGraph | scripts/session-comparison.ts:1959-2126 | the scopes returned are exactly the survivors: not a root, all links to them proved, one owner, and a parent that is a root or survives; each holds exactly the attempts proved through its parent's own; a broken proof never hides a claim |
| WorkerLineage.SurvivalIsOrderFree | scripts/session-comparison.ts:1979-2109 | the order of the claimed roots changes neither the survivors nor their attempts, as long as each claimed root that is not public has been named by an earlier one in both orders, or in neither; that is always so when only public roots are claimed, the default |
| WorkerLineage.ReadyIffParentClaimed | scripts/session-comparison.ts:1969-1983 | for roots claimed in ascending order, as both callers pass them, a claimed source with a sole parent has its scope recorded before its own visit if and only if that parent is claimed too |
| WorkerExample.ClaimLosesWorker | scripts/session-comparison.ts:1969-1983 | the claim alone can lose a worker: in one store of sound links, the lowest worker survives when the public root alone is claimed, and is lost when its parent is claimed too, because that parent is proved only by an unclaimed worker; both claims ascend, as the callers' do |
| WorkerLineage.AttemptsDescend | scripts/session-comparison.ts:2059-2070 | every attempt of a returned scope descends, dispatch by dispatch and through returned scopes only, from an attempt that a public root answers for |
| Windows.OwnedCalls | scripts/session-comparison.ts:872-883 | a call id keeps a tool name until another owned call contradicts it |
| Windows.RecordedSoleTool | scripts/session-comparison.ts:878-882 | a call id extends a window if and only if every owned call with that id has the same tool name |
| Windows.AcceptedWindow | scripts/session-comparison.ts:846-896 | the filter returns, in order, exactly the events of the declared window |
| Windows.InWindowIs | scripts/session-comparison.ts:854-896 | an event is in the window if and only if it is in time before the next human input and, past the next input, is the terminal or belongs to the source by all attempts it names, or, naming none, by mirroring an owned call |
| Windows.WindowsDisjoint | scripts/session-comparison.ts:854-861 | the windows of two accepted human sources share no event, with synthetic inputs between them or not |
| Windows.ToolRowsNeverExceedSession | scripts/session-comparison.ts:942-947 | tool rows summed over any set of distinct human turns never exceed those of the session |
| Intervals.IntervalUnionMs | scripts/session-comparison.ts:1286-1294 | the sorted sweep returns the measure of the union, whatever the order, overlaps, nesting or reversed ends |
| Intervals.UnionWithinWindow | scripts/session-comparison.ts:1527-1533 | a union of intervals inside a window is no longer than the window |
| TaskTime.MeasureWaits | scripts/session-comparison.ts:2742-2761 | the approval wait is known if and only if the lineage is proved and each wait lies in the task, it is the measure of their union, and it never exceeds the task's wall time; the issues are exactly the waits that are open or leave the task |
| TaskTime.WaitInstants | scripts/session-comparison.ts:2749-2760 | the measured waits cover exactly the instants between the request and the resolution of some approval |
| TaskTime.WallIs | scripts/session-comparison.ts:2746-2747 | the wall time is known if and only if the lineage is proved, all members are terminal and the end is not before the start |
| TaskTime.MeasureSegments | scripts/session-comparison.ts:2472-2475 | the segment time is known if and only if every source has a window, and measures the union of the windows |
| TaskTime.SegmentInstants | scripts/session-comparison.ts:2472-2475 | the segments cover exactly the instants from the start of a source to the later of its terminal and its closeout |
| ModelTiming.ReadProvenance | scripts/session-comparison.ts:604-621 | a request is kept if and only if its row is valid and the only one of its key; every kind of issue is raised if and only if a row in scope causes it, and there is none if and only if all are valid and sole |
| StepFields.RequestIs | scripts/session-comparison.ts:604-621 | a request has a time if and only if one provenance row names it, in the current protocol, bound to its source and not before that was accepted |
| ModelTiming.GroupSteps | scripts/session-comparison.ts:632-649 | each proved event is in the group of its step, once and in order; an unproved one is reported |
| StepFields.StepIs | scripts/session-comparison.ts:635-648 | an event belongs to a step if and only if it names it, a source of the task that it follows, and an attempt of its lineage |
| ModelTiming.MeasureCall | scripts/session-comparison.ts:726-755 | a call counts if and only if its agreed close meets every bound; then it lies inside its host step and its parts add up; every kind of issue is raised if and only if its cause exists, and there is none if and only if the call also closed once and was not retired |
| StepFields.CallCountsIs | scripts/session-comparison.ts:726-748 | a call counts if and only if the fields of its rows say so: its closes print alike, no other step mentions it, its rows name the request of the step, and its numbers fit in the host close |
| ModelTiming.MeasureStepCalls | scripts/session-comparison.ts:715-758 | the counted calls of a step are exactly its countable ones, each with the total of its own rows in one listing without repetition; the issues are exactly those of its calls, of unnamed calls and of a step without calls |
| ModelTiming.MeasureStep | scripts/session-comparison.ts:685-759 | a step counts if and only if its agreed close is the only one of a known request and lies inside its attempt; it observes its request and its attempt's source; the issues are exactly those of the step and of its calls |
| StepFields.StepCountsIs | scripts/session-comparison.ts:685-709 | a step counts if and only if the fields of its rows say so: its closes print alike, no other step closes its request, and the close lies in its attempt around the dispatch |
| StepFields.SourcesAre | scripts/session-comparison.ts:713 | the observed sources are those of the attempts of the counted closes |
| ModelTiming.AddStepConserves | scripts/session-comparison.ts:710-757 | adding a sound step keeps failed + wait <= call time and failed <= physical attempts |
| ModelTiming.AuditTotals | scripts/session-comparison.ts:710-764 | over all counted steps the totals stay conserved, and steps and observed requests are equally many |
| TimingSums.SumsAreFixed | scripts/session-comparison.ts:710-764 | the journal fixes the sums: whatever order the maps are walked in, two audits of the same steps have the same totals in every counter and duration |
| TimingFields.ReportedSums | scripts/session-comparison.ts:710-783 | each reported sum is the plain sum of its own journal field, durations of the first host closes and durations, attempts, failed attempts, failed time and waits of the first call closes, over any listing of the counted steps and calls; the counters count what these closes say; a sum is reported if and only if it ranges over something and none is out of range |
| ModelTiming.MeasureModelTiming | scripts/session-comparison.ts:582-785 | observed steps equal observed requests and are provenance requests; `observed_host_steps` holds, for the steps and for the attempts, if and only if provenance, sources, events, steps and calls are all clean, and then requests and steps correspond one to one, each step has a call and each source a step; the reported sums are those of an audit of the counted steps, hence fixed, and are conserved; every issue is raised if and only if its cause exists |
| Groups.Group | scripts/session-comparison.ts:1498-1502 | grouping puts every item in the list of its key, once and in order |
| Groups.Tally | scripts/session-comparison.ts:1507-1519 | a counter map holds the number of items of each key |
| Transport.OneResultPerRow | scripts/session-comparison.ts:1576-1588 | no usage row certifies two completed results, with several physical attempts or a mix of original and parsed results |
| Transport.MeasureDispatches | scripts/session-comparison.ts:1536-1557 | one attempt's dispatches, ends and retirements are counted exactly, and the intervals are those of the settled dispatches that the window bounds |
| TransportSpans.WireInstants | scripts/session-comparison.ts:1527-1556 | the wire union covers an instant if and only if a valid dispatch with one end, on the same wire, was under way then, between readable clocks inside the window |
| Transport.MeasureResults | scripts/session-comparison.ts:1558-1593 | the attempt's one completed result is joined if and only if a row certifies it |
| TransportSpans.ModelInstants | scripts/session-comparison.ts:1588-1591 | the model union covers an instant if and only if it lies between the earliest dispatch of an attempt and its proved result, both inside the window |
| TransportFields.ProvedIs | scripts/session-comparison.ts:1558-1575 | a result is proved if and only if it is the only one of its attempt, lists its dispatches in order, each started and ended once, and has a receipt of its own |
| TransportFields.JoinIs | scripts/session-comparison.ts:1576-1587 | a proved result is joined with a row if and only if that row alone names its source, turn, attempt and call, is a certified success, and belongs to it by a digest or call that no other result has |
| TransportFields.OwnedIs | scripts/session-comparison.ts:1479-1496 | an event is owned if and only if its fields name a source of the task that it follows, its turn, and an attempt of its lineage |
| TransportFields.LateIs | scripts/session-comparison.ts:1534 | an owned event is late if and only if its own clock shows a time after the delivery |
| Transport.MeasureTransport | scripts/session-comparison.ts:1468-1623 | every owned event is counted once, the late ones apart; the joins are exactly the certified results and use different rows; both time unions measure exactly the bounded intervals of settled dispatches and proved results, and fit in the accepted-to-delivery window |
| LocalAdapters.FindConflictingCalls | scripts/session-comparison.ts:1351-1355 | the conflicting calls are exactly those that two namespaces claim |
| LocalAdapters.EndpointJoinsAreInjective | scripts/session-comparison.ts:1436-1454 | no usage row certifies two local endpoints |
| LocalAdapters.EndpointsAddUp | scripts/session-comparison.ts:1419-1442 | each valid attempt ended in exactly one way, and has at most one kind of result |
| LocalAdapters.ValidListsDispatches | scripts/session-comparison.ts:1382-1404 | a valid attempt's finish lists exactly the wire dispatches of its call and attempt |
| LocalAdapters.DispatchesAreApart | scripts/session-comparison.ts:1387-1390 | no wire dispatch backs two attempts: two valid attempts that list one dispatch have the same key |
| AdapterFields.WireIs | scripts/session-comparison.ts:1390-1396 | a wire event fits its attempt if and only if it names the same attempt, claim and turn, and lies between start and finish, or settles the attempt before the delivery |
| AdapterFields.EndsIs | scripts/session-comparison.ts:1397-1404 | a listed dispatch ended if and only if one event of its attempt ends it, on the same wire and not earlier by the clocks |
| AdapterFields.BoundedIs | scripts/session-comparison.ts:1325-1332 | an event is bounded if and only if its reported and its stored time lie in the window and in the bounds of its attempt |
| AdapterFields.NamespaceIs | scripts/session-comparison.ts:1336-1338 | two events make one claim if and only if source, attempt, owner and purpose are equal and the job is equal or named by neither |
| AdapterFields.TalliesAre | scripts/session-comparison.ts:1313-1322 | the tallies hold how often a dispatch is started and a receipt is used over all events |
| AdapterFields.FirstSeqIs | scripts/session-comparison.ts:1376-1381 | an incomplete attempt is reported under its one start, or, without one, under its one finish |
| LocalAdapters.MeasureLocalAdapters | scripts/session-comparison.ts:1300-1466 | each attempt is counted once under everything it shows, judged by its own wire traffic, the clocks and the tallies of all events; the joins are exactly the certified endpoints, at most the returned ones, and every attempt is joined or unknown; the status, the late events and every issue are exact |
| Coverage.CheckCoverage | scripts/session-comparison.ts:1643-1787 | the calls are grouped by identity, and every coverage issue of an event, a response, a call, a step without calls or a bridge is raised if and only if its cause exists |
| Coverage.QuietIsExplained | scripts/session-comparison.ts:1666-1785 | no issue is raised if and only if everything is explained: events in scope are owned, identified and not failed; calls are settled single attempts with their own certified usage; completed responses have exact usage; call ids are unique, and responses and host calls correspond one to one |
| CoverageFields.ExplainedIs | scripts/session-comparison.ts:1666-1785 | everything is explained if and only if the fields of the events, of the rows of each call and of the responses say so, call ids are unique, and the certified bridges are one to one |
| Completeness.BoundRowsDiffer | scripts/session-comparison.ts:1818-1840 | two bound calls never share a usage row |
| CompletenessFields.BoundIs | scripts/session-comparison.ts:1824-1843 | a call is bound to a row if and only if their fields say so: it started, answered and returned once in one undisturbed attempt, no other call has its id, and the one execution row that names it is a certified success with the digest of the response |
| CompletenessFields.CallsAre | scripts/session-comparison.ts:1804-1817 | the calls are exactly those that some owned event names, each with its events |
| CompletenessFields.MainRoleIs | scripts/session-comparison.ts:1855-1857 | without calls the inventory is unproved if and only if an execution row has the role of a brain or a writer |
| Completeness.AllBound | scripts/session-comparison.ts:1824-1850 | when every call is bound, calls and main-usage rows correspond one to one |
| Completeness.ZeroCallsMean | scripts/session-comparison.ts:1848-1850 | a known zero is a bound call whose row has every token count zero or absent |
| Completeness.ResponsesMatchCalls | scripts/session-comparison.ts:1761-1787 | when every call is bound and everything is explained, each observed provider response is named by the own usage row of exactly one host call, and a call's row names only one response identity |
| Completeness.MeasureCompleteness | scripts/session-comparison.ts:1789-1889 | known zeros are exactly the bound calls without tokens, known zeros <= bound calls <= observed calls, the row and identity-gap counters are those of their rows, and `observed_completed_calls` holds if and only if there is a call, every call is bound and every main-model event and response is explained (`Coverage.Explained`); then the main rows are as many as the calls; `not_observed` and every issue of the main producer also have their exact conditions |
| Bridges.RecordBridge | scripts/session-comparison.ts:1773-1780 | comparing with the last partner finds the first bridge that breaks the correspondence |
| Bridges.FindConflicts | scripts/session-comparison.ts:1771-1781 | a conflict is reported if and only if the bridges are not one to one |
| Bridges.MainBridgeConflicts | scripts/session-comparison.ts:1761-1782 | for the main model: no conflict if and only if provider responses and host calls correspond one to one; unbridged responses are exactly the unknown ones; `Coverage.CheckCoverage` passes it the certified rows only |
| Bridges.WorkerBridgeConflicts | scripts/session-comparison.ts:2668-2688 | the same for the response digests of a worker |
| TaskScope.ScopeTask | scripts/session-comparison.ts:2492-2543 | public members, proved workflow sources and the merged workers have disjoint keys; the owner of an attempt is its sole claimant, the parent map joins the three parent relations, and the accepted and claimed sets hold every source and claim |
| TaskScope.AttemptsAre | scripts/session-comparison.ts:2501-2528 | a source has exactly the attempts of its own scope |
| TaskScope.ParentIs | scripts/session-comparison.ts:2502-2522 | and exactly the parent of its own scope |
| TaskScope.TracesAreNames | scripts/session-comparison.ts:2598-2609 | a row that the trace proves names an attempt of one source of the scope, and an accepted source that this owner reaches through parents, a worker's row its own source |
| TaskScope.NamesAreTraces | scripts/session-comparison.ts:2598-2609 | conversely, such a row is proved by its trace, given that one public attempt has one source, the primary key of the attempt table |
| TaskScope.WorkerRowsDescend | scripts/session-comparison.ts:2606-2607 | a proved row of a worker names an attempt that descends, dispatch by dispatch through scopes that one graph returned, from an attempt of a public root |
| TaskScope.PublicRowsFollowLineage | scripts/session-comparison.ts:2608 | a proved row of a public owner is accepted by a public member on the approval lineage of that owner |
| TaskScope.JoinedKeepsMembers | scripts/session-comparison.ts:2502-2525 | adding workflow sources and workers to the parent map changes no parent of a public member and gives the root none |
| TaskScope.ClaimedRowsAreKept | scripts/session-comparison.ts:2530-2544 | a possible cost does not disappear: a row that names a claimed attempt or source is counted, as exact or as unproven, also where no scope survived |
| TaskRows.BindUsageAttempts | scripts/session-comparison.ts:2503-2509 | an attempt stays bound if and only if all claims of it agree |
| TaskRows.AssignRows | scripts/session-comparison.ts:2589-2633 | the row loop gives every row its one class, in log order |
| TaskRows.RowClasses | scripts/session-comparison.ts:2598-2633 | a row that neither selection takes belongs to the task if and only if it names a known or claimed source or attempt, else to a claimed workflow run, and counts by time only inside a window and when it names no exact source |
| TaskRows.ExactRowsAddUp | scripts/session-comparison.ts:2592-2613 | the exact rows are the exact projection rows, the exact noticing rows and the rows that a trace proves, each once |
| TaskRows.SelectionsExclude | scripts/lib/accepted-task-noticing-usage.ts:24-25 | for the repository's formats, no row that the projection selector relates is an exact noticing row |
| TaskRows.TotalAdds | scripts/session-comparison.ts:2738-2741 | the tokens of two disjoint row sets add up to those of their union |
| TaskRows.MeasureTaskUsage | scripts/session-comparison.ts:2563-2741 | from the two selections to the totals: the exact count is the sum of its three parts, every row has one place, each of the four token counts, exact and unproven, is the plain sum of its own accounting field over the listed rows, and every record count is that of its class |
| EnvFiles.ParseEnvText | src/config.ts:51-71 | the parsed environment holds exactly the last assignment of each key |
| EnvFiles.AssignmentReads | src/config.ts:54-69 | a line assigns the text after its first `=` to the trimmed text before it; leading blanks and trailing returns do not matter, and a value in quotes loses them |
| EnvFiles.AssignmentSkips | src/config.ts:59-63 | a line that is blank, a comment, or without `=` assigns nothing |
| EnvFiles.SplitJoined | src/config.ts:53 | the lines of two texts joined by a newline are the lines of both |
| EnvFiles.SplitsNothing | src/config.ts:53 | a text without a newline is its own only line |
| EnvFiles.MergeIsConcatenation | src/config.ts:91 | merging two parses is parsing the files joined by a newline |
| EnvFiles.CaptureEnvFiles | src/config.ts:84-94 | the captured environment is the last assignment over all existing files in search order, and the active files are these in that order, each once |
| EnvFiles.DistinctKeepsOrder | src/config.ts:86 | of two paths, the one that occurs first is searched first |
| EnvFiles.HoldsUnique | src/config.ts:84-94 | the lines of the files determine the environment, so two captures of unchanged files are equal |
| ConfigSnapshot.RuntimeConfigRequestSnapshot.constructor | src/config.ts:179-181 | a new snapshot captures both halves at once |
| ConfigSnapshot.RuntimeConfigRequestSnapshot.EnvironmentValue | src/config.ts:183-186 | a read answers from the files of the last capture, captures only when the half is absent, and leaves the other half alone |
| ConfigSnapshot.RuntimeConfigRequestSnapshot.SecretValue | src/config.ts:188-191 | the same for the secret half |
| ConfigSnapshot.RuntimeConfigRequestSnapshot.Invalidate | src/config.ts:193-196 | drops one half, keeps the other and captures nothing |
| ConfigSnapshot.Perform | src/config.ts:212-226 | each operation of a request on the snapshot object gives the answer and leaves the state of the value model below |
| ConfigSnapshot.NestedScopesShare | src/config.ts:206-209 | inside a scope, work answers and caches as if its nested scopes were not there |
| ConfigSnapshot.AnswersInOrder | src/config.ts:219-226 | in a scope each operation answers from the snapshot that the earlier ones left |
| ConfigSnapshot.ReadsAgree | src/config.ts:179-197 | two reads of a kind see the files of the same moment if and only if no invalidation of that kind lies between them |
| ConfigSnapshot.ReadIsLookup | src/config.ts:219-226 | a read is the last-assignment lookup in the joined files of the moment it sees, after the live process environment and before the fallback |

## Left out

- SQLite, SQL text, file reading and NDJSON decoding: inputs are decoded sequences and maps. That event sequences and event ids are unique (src/runtime/harness/eventlog-schema.ts:2919-2920) is a precondition where a pass relies on it.
- SHA-256, canonicalCacheAccounting, Date.parse and the workflow participant readers: function parameters or inputs.
- String lengths are counted in Dafny characters, not UTF-16 units, and object keys such as `__proto__` are ordinary map keys.
- Payload values that are arrays or objects are opaque (`Json.Other`), except the lists of dispatch ids; their conversions by `String(...)` and `Number(...)` are parameters (`Context.show`, `Context.coerced`) or never equal a string.
- ModelTiming.MeasureModelTiming: sums are over reals, so floating-point rounding of the totals is not modelled; the overflow branch is.
- Transport.MeasureTransport: the issues are not modelled; every result, join, count and time is.
- Coverage.CheckCoverage: the two conflict issues (of call ids and of bridges) are modelled without the coordinates of the event that first shows them, and an issue of a call names the call, not its first event.
- Completeness.MeasureCompleteness: the issue list of the whole report (attribution issues, row counters as text and four constants) is not modelled; that of the main producer is.
- WorkerLineage.ReadWorkerGraph: issue codes and the unfinished-attempt counters are not modelled.
- TaskScope.ScopeTask: the proved workflow sources and the claims of the workflow and creation readers are inputs; the counters of unfinished attempts are not modelled.
- TaskRows.MeasureTaskUsage: call counts by model, durations and the tool counters of measureRows are not modelled; nor are the route and worker-coverage issues of measureAcceptedTask.
- Readers that are one long conjunction of field checks: proveOrigin, readClosedCreationTestParents, ownedTerminal and the noticing packet decoder.
- readWorkflowUsageGraph beyond its prune loop, and measureAcceptedTurn beyond the passes it shares with measureAcceptedTask.
- readApprovalExecutionSource (src/runtime/harness/approval-execution-source.ts): a function parameter.
- The decoding of the secret vault file and the Windows privacy checks of src/config.ts: the decoded entries are an input. ConfigSnapshot models one asynchronous context; it does not model the scheduler that gives each request its own.
- Formatting, command-line parsing, smoke and benchmark scripts, and the remaining defaults of src/config.ts: single-branch code with no state argument.
