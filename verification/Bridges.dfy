/** Bridges between provider responses and host calls. Usage rows that carry
    both identities relate the two namespaces; the relation has to be one to
    one (scripts/session-comparison.ts, the end of mainModelUsageCoverageIssues
    and the worker responses of measureAcceptedTask). */
module Bridges {
  import opened Identifiers
  import opened Usage

  /** A provider identity and a host identity of one scope: a source's attempt
      for the main model, an attempt for a worker. */
  datatype Bridge<S> = Bridge(scope: S, provider: string, host: string)

  /** The last recorded partner of each identity. */
  datatype Partners<S(==)> = Partners(hostOf: map<string, (S, string)>, providerOf: map<string, (S, string)>)
  {
    /** The recorded partner of either identity differs from the new one. */
    predicate Conflicts(b: Bridge<S>) {
      || (b.provider in hostOf && hostOf[b.provider] != (b.scope, b.host))
      || (b.host in providerOf && providerOf[b.host] != (b.scope, b.provider))
    }

    function Record(b: Bridge<S>): Partners<S> {
      Partners(hostOf[b.provider := (b.scope, b.host)], providerOf[b.host := (b.scope, b.provider)])
    }

    /** Each map holds a seen partner of every seen identity. */
    ghost predicate LastHosts(seen: set<Bridge<S>>) {
      && (forall p | p in hostOf :: Bridge(hostOf[p].0, p, hostOf[p].1) in seen)
      && (forall b | b in seen :: b.provider in hostOf)
    }

    ghost predicate LastProviders(seen: set<Bridge<S>>) {
      && (forall h | h in providerOf :: Bridge(providerOf[h].0, providerOf[h].1, h) in seen)
      && (forall b | b in seen :: b.host in providerOf)
    }

    ghost predicate Last(seen: set<Bridge<S>>) {
      LastHosts(seen) && LastProviders(seen)
    }
  }

  /** Two bridges that share either identity are one and the same. */
  ghost predicate OneToOne<S(!new)>(seen: set<Bridge<S>>) {
    forall a, b | a in seen && b in seen && (a.provider == b.provider || a.host == b.host) :: a == b
  }

  /** Every seen bridge that shares an identity with `b` is `b`. */
  ghost predicate Fits<S(!new)>(seen: set<Bridge<S>>, b: Bridge<S>) {
    forall a | a in seen && (a.provider == b.provider || a.host == b.host) :: a == b
  }

  lemma OneMore<S(!new)>(seen: set<Bridge<S>>, b: Bridge<S>)
    ensures OneToOne(seen + {b}) <==> OneToOne(seen) && Fits(seen, b)
  {
  }

  /** In a correspondence, the last host of a provider is its only one. */
  lemma LastHostDecides<S(!new)>(seen: set<Bridge<S>>, last: Partners<S>, b: Bridge<S>)
    requires last.LastHosts(seen) && OneToOne(seen)
    ensures (forall a | a in seen && a.provider == b.provider :: a == b)
            <==> b.provider in last.hostOf ==> last.hostOf[b.provider] == (b.scope, b.host)
  {
  }

  lemma LastProviderDecides<S(!new)>(seen: set<Bridge<S>>, last: Partners<S>, b: Bridge<S>)
    requires last.LastProviders(seen) && OneToOne(seen)
    ensures (forall a | a in seen && a.host == b.host :: a == b)
            <==> b.host in last.providerOf ==> last.providerOf[b.host] == (b.scope, b.provider)
  {
  }

  lemma LastPartnersDecide<S(!new)>(seen: set<Bridge<S>>, last: Partners<S>, b: Bridge<S>)
    requires last.Last(seen) && OneToOne(seen)
    ensures Fits(seen, b) <==> !last.Conflicts(b)
  {
    hide OneToOne, Partners.LastHosts, Partners.LastProviders;
    LastHostDecides(seen, last, b);
    LastProviderDecides(seen, last, b);
  }

  lemma RecordHosts<S(!new)>(seen: set<Bridge<S>>, last: Partners<S>, b: Bridge<S>)
    requires last.LastHosts(seen)
    ensures last.Record(b).LastHosts(seen + {b})
  {
  }

  lemma RecordProviders<S(!new)>(seen: set<Bridge<S>>, last: Partners<S>, b: Bridge<S>)
    requires last.LastProviders(seen)
    ensures last.Record(b).LastProviders(seen + {b})
  {
  }

  /** Comparing with the last partner alone finds the first bridge that breaks
      the correspondence, whatever was recorded before. */
  lemma RecordBridge<S(!new)>(seen: set<Bridge<S>>, last: Partners<S>, b: Bridge<S>)
    requires last.Last(seen)
    ensures last.Record(b).Last(seen + {b})
    ensures OneToOne(seen + {b}) <==> OneToOne(seen) && !last.Conflicts(b)
  {
    hide Fits, OneToOne, Partners.Conflicts, Partners.Record, Partners.LastHosts, Partners.LastProviders;
    RecordHosts(seen, last, b);
    RecordProviders(seen, last, b);
    OneMore(seen, b);
    if OneToOne(seen) {
      LastPartnersDecide(seen, last, b);
    }
  }

  ghost function Seen<S>(bridges: seq<Bridge<S>>): set<Bridge<S>> {
    set b | b in bridges
  }

  /** One pass over the bridges reports a conflict exactly when the relation they
      form is not one to one, and never before the relation breaks. */
  method FindConflicts<S(==,!new)>(bridges: seq<Bridge<S>>) returns (conflicts: set<nat>)
    ensures conflicts == {} <==> OneToOne(Seen(bridges))
    ensures forall n | n in conflicts :: n < |bridges| && !OneToOne(Seen(bridges[..n + 1]))
  {
    hide OneToOne, Partners.Conflicts, Partners.Record, Partners.Last;
    conflicts := {};
    var last: Partners<S> := Partners(map[], map[]);
    NothingSeen<S>();
    assert Seen(bridges[..0]) == {};
    for n := 0 to |bridges|
      invariant last.Last(Seen(bridges[..n]))
      invariant conflicts == {} <==> OneToOne(Seen(bridges[..n]))
      invariant forall m | m in conflicts :: m < n && !OneToOne(Seen(bridges[..m + 1]))
    {
      var b := bridges[n];
      assert bridges[..n + 1] == bridges[..n] + [b];
      assert Seen(bridges[..n + 1]) == Seen(bridges[..n]) + {b};
      RecordBridge(Seen(bridges[..n]), last, b);
      if last.Conflicts(b) {
        conflicts := conflicts + {n};
      }
      last := last.Record(b);
    }
    assert bridges[..|bridges|] == bridges;
  }

  lemma NothingSeen<S(!new)>()
    ensures OneToOne<S>({}) && Partners<S>.Partners(map[], map[]).Last({})
  {
  }

  // ---------------------------------------------------------------- the main model

  /** A completed provider response, and a host call, of one source's attempt. */
  datatype ProviderResponse = ProviderResponse(source: nat, attempt: string, responseId: string)

  datatype HostCall = HostCall(source: nat, attempt: string, callId: string)

  predicate UsageFor(sessionId: string, row: UsageRow, source: nat, attempt: string) {
    row.AcceptedSource() == Some(SourceKey(sessionId, source)) && row.LogicalTurn() == Some("turn:" + Decimal(source))
        && row.Attempt() == Some(attempt)
  }

  /** The row names the response, and one of the observed calls of its attempt. */
  predicate Bridging(sessionId: string, calls: set<HostCall>, r: ProviderResponse, row: UsageRow) {
    && UsageFor(sessionId, row, r.source, r.attempt)
    && (row.responseId == Some(r.responseId) || row.Call() == Some(r.responseId))
    && row.Call().Some? && HostCall(r.source, r.attempt, row.Call().value) in calls
  }

  function BridgeOf(r: ProviderResponse, row: UsageRow): Bridge<(nat, string)> {
    Bridge((r.source, r.attempt), r.responseId, row.Call().GetOr(""))
  }

  ghost function MainRelation(sessionId: string, calls: set<HostCall>, responses: seq<ProviderResponse>,
      usage: seq<UsageRow>): set<Bridge<(nat, string)>> {
    set r, row | r in responses && row in usage && Bridging(sessionId, calls, r, row) :: BridgeOf(r, row)
  }

  function RowBridges(sessionId: string, calls: set<HostCall>, r: ProviderResponse,
      usage: seq<UsageRow>): (bridges: seq<Bridge<(nat, string)>>)
    ensures forall b :: b in bridges <==> exists row ::
                                            row in usage && Bridging(sessionId, calls, r, row) && b == BridgeOf(r, row)
  {
    if usage == [] then []
    else (if Bridging(sessionId, calls, r, usage[0]) then [BridgeOf(r, usage[0])]
          else []) + RowBridges(sessionId, calls, r, usage[1..])
  }

  /** No conflict is reported exactly when provider responses and host calls
      correspond one to one; a response of an attempt with calls but without a
      bridge is reported as unknown. */
  method MainBridgeConflicts(sessionId: string, calls: set<HostCall>, responses: seq<ProviderResponse>,
      usage: seq<UsageRow>)
    returns (conflicts: set<nat>, unknown: set<ProviderResponse>)
    ensures conflicts == {} <==> OneToOne(MainRelation(sessionId, calls, responses, usage))
    ensures unknown == set r | r in responses
            && (exists call :: call in calls && call.source == r.source && call.attempt == r.attempt)
                             && forall row | row in usage :: !Bridging(sessionId, calls, r, row)
  {
    hide Bridging, OneToOne;
    var bridges: seq<Bridge<(nat, string)>> := [];
    unknown := {};
    for n := 0 to |responses|
      invariant forall b :: b in bridges <==> b in MainRelation(sessionId, calls, responses[..n], usage)
      invariant unknown == set r | r in responses[..n]
                && (exists call :: call in calls && call.source == r.source && call.attempt == r.attempt)
                                   && forall row | row in usage :: !Bridging(sessionId, calls, r, row)
    {
      var r := responses[n];
      assert responses[..n + 1] == responses[..n] + [r];
      var found := RowBridges(sessionId, calls, r, usage);
      if found == [] && exists call :: call in calls && call.source == r.source && call.attempt == r.attempt {
        unknown := unknown + {r};
      }
      assert found == [] <==> forall row | row in usage :: !Bridging(sessionId, calls, r, row) by {
        assert found != [] ==> found[0] in found;
        assert forall row | row in usage && Bridging(sessionId, calls, r, row) :: BridgeOf(r, row) in found;
      }
      bridges := bridges + found;
    }
    assert responses[..|responses|] == responses;
    assert Seen(bridges) == MainRelation(sessionId, calls, responses, usage);
    conflicts := FindConflicts(bridges);
  }

  // ---------------------------------------------------------------- one worker

  datatype WorkerResponse = WorkerResponse(attempt: string, hostId: Option<string>, digest: Option<string>)

  predicate Identified(r: WorkerResponse) {
    r.digest.Some? && Digest(r.digest.value) && r.hostId.Some? && ExactIdentity(r.hostId.value)
  }

  ghost function WorkerRelation(responses: seq<WorkerResponse>): set<Bridge<string>> {
    set r | r in responses && Identified(r) :: Bridge(r.attempt, r.digest.value, r.hostId.value)
  }

  /** The same for the response digests of one worker. */
  method WorkerBridgeConflicts(responses: seq<WorkerResponse>) returns (conflicts: set<nat>)
    ensures conflicts == {} <==> OneToOne(WorkerRelation(responses))
  {
    hide OneToOne, Digest, ExactIdentity;
    var bridges: seq<Bridge<string>> := [];
    for n := 0 to |responses|
      invariant forall b :: b in bridges <==> b in WorkerRelation(responses[..n])
    {
      var r := responses[n];
      assert responses[..n + 1] == responses[..n] + [r];
      if Identified(r) {
        bridges := bridges + [Bridge(r.attempt, r.digest.value, r.hostId.value)];
      }
    }
    assert responses[..|responses|] == responses;
    assert Seen(bridges) == WorkerRelation(responses);
    conflicts := FindConflicts(bridges);
  }
}
