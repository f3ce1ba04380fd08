/** One decoded line of the token-usage log. Absent fields are `None`; a row's
    identity is its position in the one canonical read of the log. */
module Usage {
  import opened Identifiers

  /** `otherKeys` records a trace key that none of the accounting passes reads. */
  datatype Trace = Trace(
    modelCallId: Option<string>,
    acceptedSource: Option<string>,
    logicalTurnId: Option<string>,
    attemptId: Option<string>,
    otherKeys: bool)
  {
    /** The trace names a model call and nothing else. */
    predicate OnlyModelCall() {
      acceptedSource.None? && logicalTurnId.None? && attemptId.None? && !otherKeys
    }
  }

  datatype UsageRow = UsageRow(
    source: string,
    kind: string,
    role: Option<string>,
    channel: Option<string>,
    ok: Option<bool>,
    at: Option<int>,
    responseId: Option<string>,
    trace: Option<Trace>,
    runId: Option<string>,
    stepId: Option<string>,
    itemKey: Option<string>,
    providerReportedModel: Option<string>,
    account: Option<string>,
    backendId: Option<string>,
    inputTokens: real,
    outputTokens: real,
    cachedInputTokens: Option<real>,
    cacheCreationInputTokens: Option<real>,
    reasoningTokens: Option<real>,
    totalTokens: Option<real>)
  {
    /** `row.trace?.modelCallId` */
    function Call(): Option<string> {
      if trace.Some? then trace.value.modelCallId else None
    }

    /** `row.trace?.acceptedSource` */
    function AcceptedSource(): Option<string> {
      if trace.Some? then trace.value.acceptedSource else None
    }

    /** `row.trace?.logicalTurnId` */
    function LogicalTurn(): Option<string> {
      if trace.Some? then trace.value.logicalTurnId else None
    }

    /** `row.trace?.attemptId` */
    function Attempt(): Option<string> {
      if trace.Some? then trace.value.attemptId else None
    }

    /** Usage of a standalone producer: a local call and a response identity,
        without any donated source, attempt or workflow coordinate. */
    predicate Standalone(f: Formats) {
      && trace.Some? && trace.value.OnlyModelCall()
      && Call().Some? && f.safeId(Call().value)
      && responseId.Some? && f.safeId(responseId.value)
      && runId.None? && stepId.None? && itemKey.None?
    }
  }

  /** The result of the cache-accounting arithmetic on one row. */
  datatype Accounting = Accounting(certified: bool, invalid: bool, promptTokens: real, cachedReadTokens: real,
      uncachedInputTokens: real)

  /** What the passes over one task's journal know: its accepted sources, the
      source of each attempt, and their lineage. */
  datatype Context = Context(
    sessionId: string, sources: set<nat>, sourceByAttempt: map<string, nat>, isAncestor: (nat, nat) -> bool,
    sha256: string -> string, accounting: UsageRow -> Accounting)

  /** The row's arithmetic is certified and consistent. */
  predicate Certified(c: Context, row: UsageRow) {
    c.accounting(row).certified && !c.accounting(row).invalid
  }
}
