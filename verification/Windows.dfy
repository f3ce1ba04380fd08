/** Which journal events belong to one accepted human source
    (scripts/session-comparison.ts, acceptedSourceWindowEvents), and why the
    tool rows of different turns are never counted twice. */
module Windows {
  import opened Groups
  import opened Identifiers

  /** `attempts` holds the values of the attempt keys that are present (`None`
      for a value that is not a string); `callIds` the non-empty call identities. */
  datatype Event = Event(
    seqNo: nat,
    kind: string,
    synthetic: bool,
    at: Option<int>,
    sourceUserSeq: Option<int>,
    attempts: seq<Option<string>>,
    callIds: seq<string>,
    accounting: string,
    toolName: string)
  {
    predicate Input() {
      kind == "user_input_received"
    }

    predicate Human() {
      Input() && !synthetic
    }
  }

  /** One accepted turn: its source, its durable attempts, its closing time when
      known, and the event of its owned terminal. */
  datatype Turn = Turn(source: Event, attemptIds: set<string>, endMs: Option<int>, terminal: Option<nat>)

  /** The journal read is ordered by its primary key. */
  ghost predicate Ordered(events: seq<Event>) {
    forall i, j | 0 <= i < j < |events| :: events[i].seqNo < events[j].seqNo
  }

  /** `events.find(...)`: the first later input, or the first later human input. */
  function NextInput(events: seq<Event>, after: nat, humanOnly: bool): Option<nat> {
    if events == [] then None
    else if events[0].seqNo > after
        && (if humanOnly then events[0].Human() else events[0].Input()) then Some(events[0].seqNo)
    else NextInput(events[1..], after, humanOnly)
  }

  predicate WithinBounds(events: seq<Event>, t: Turn, e: Event) {
    var next := NextInput(events, t.source.seqNo, true);
    && t.source.seqNo <= e.seqNo && (next.Some? ==> e.seqNo < next.value)
    && e.at.Some? && (t.endMs.Some? ==> e.at.value <= t.endMs.value)
  }

  /** `None` when the event names no attempt at all. */
  function OwnsAttempt(t: Turn, e: Event): Option<bool> {
    if e.attempts == [] then None else Some(forall a | a in e.attempts :: a.Some? && a.value in t.attemptIds)
  }

  predicate OwnedCall(events: seq<Event>, t: Turn, e: Event) {
    && WithinBounds(events, t, e) && e.kind == "tool_called" && e.accounting == "top_level"
    && e.sourceUserSeq == Some(t.source.seqNo) && OwnsAttempt(t, e) == Some(true)
  }

  /** Some owned call has this identity, and every owned call that has it uses
      this tool. */
  ghost predicate SoleTool(events: seq<Event>, t: Turn, id: string, name: string) {
    && (exists e :: e in events && OwnedCall(events, t, e) && id in e.callIds)
    && forall e | e in events && OwnedCall(events, t, e) && id in e.callIds :: e.toolName == name
  }

  ghost predicate MirrorsOwnedCall(events: seq<Event>, t: Turn, e: Event) {
    && e.kind in {"tool_called", "tool_returned"} && e.accounting == "transport_mirror"
    && exists id :: id in e.callIds && SoleTool(events, t, id, e.toolName)
  }

  ghost predicate InWindow(events: seq<Event>, t: Turn, e: Event) {
    var next := NextInput(events, t.source.seqNo, false);
    && WithinBounds(events, t, e)
    && (next.None? || e.seqNo < next.value || t.terminal == Some(e.seqNo)
        || (e.sourceUserSeq == Some(t.source.seqNo)
            && match OwnsAttempt(t, e)
               case Some(owned) => owned
               case None => MirrorsOwnedCall(events, t, e)))
  }

  ghost function Window(events: seq<Event>, t: Turn): set<Event> {
    set e | e in events && InWindow(events, t, e)
  }

  // ---------------------------------------------------------------- the computation

  ghost function AllOwnedCalls(events: seq<Event>, t: Turn): set<Event> {
    set e | e in events && OwnedCall(events, t, e)
  }

  /** What the owned-call map holds after visiting `calls`: `None` marks an
      identity that two different tools share. */
  ghost predicate Recorded(calls: set<Event>, owned: map<string, Option<string>>) {
    && (forall id :: id in owned <==> exists e :: e in calls && id in e.callIds)
    && (forall id, name | id in owned && owned[id] == Some(name) ::
          forall e | e in calls && id in e.callIds :: e.toolName == name)
    && (forall id | id in owned && owned[id].None? ::
          exists e, f :: e in calls && f in calls && id in e.callIds && id in f.callIds && e.toolName != f.toolName)
  }

  method RecordCall(ghost calls: set<Event>, owned: map<string, Option<string>>, e: Event)
      returns (result: map<string, Option<string>>)
    requires Recorded(calls, owned)
    ensures Recorded(calls + {e}, result)
  {
    result := owned;
    for n := 0 to |e.callIds|
      invariant forall id :: id in result <==> id in owned || id in e.callIds[..n]
      invariant forall id | id in result ::
                  result[id] == if id !in e.callIds[..n] then owned[id]
                                else if id in owned && owned[id] != Some(e.toolName) then None
                                else Some(e.toolName)
    {
      var id := e.callIds[n];
      assert e.callIds[..n + 1] == e.callIds[..n] + [id];
      if id in result && result[id] != Some(e.toolName) {
        result := result[id := None];
      } else if id !in result {
        result := result[id := Some(e.toolName)];
      }
    }
    assert e.callIds[..|e.callIds|] == e.callIds;
    CallRecorded(calls, owned, e, result);
  }

  lemma CallRecorded(calls: set<Event>, owned: map<string, Option<string>>, e: Event,
      result: map<string, Option<string>>)
    requires Recorded(calls, owned)
    requires forall id :: id in result <==> id in owned || id in e.callIds
    requires forall id | id in result ::
               result[id] == if id !in e.callIds then owned[id]
                             else if id in owned && owned[id] != Some(e.toolName) then None
                             else Some(e.toolName)
    ensures Recorded(calls + {e}, result)
  {
    forall id | id in result && result[id].None?
      ensures exists f, g ::
                f in calls + {e} && g in calls + {e} && id in f.callIds && id in g.callIds && f.toolName != g.toolName
    {
      if owned[id].None? {
        var f, g :| f in calls && g in calls && id in f.callIds && id in g.callIds && f.toolName != g.toolName;
        assert f in calls + {e} && g in calls + {e};
      } else {
        var f :| f in calls && id in f.callIds;
        assert f in calls + {e} && e in calls + {e};
      }
    }
    forall id | id in result ensures exists f :: f in calls + {e} && id in f.callIds {
      if id in owned {
        var f :| f in calls && id in f.callIds;
        assert f in calls + {e};
      } else {
        assert e in calls + {e};
      }
    }
  }

  lemma RecordedSoleTool(events: seq<Event>, t: Turn, owned: map<string, Option<string>>, id: string, name: string)
    requires Recorded(AllOwnedCalls(events, t), owned)
    ensures id in owned && owned[id] == Some(name) <==> SoleTool(events, t, id, name)
  {
  }

  method OwnedCalls(events: seq<Event>, t: Turn) returns (owned: map<string, Option<string>>)
    ensures Recorded(AllOwnedCalls(events, t), owned)
  {
    hide OwnedCall;
    owned := map[];
    ghost var calls := {};
    for n := 0 to |events|
      invariant calls == set e | e in events[..n] && OwnedCall(events, t, e)
      invariant Recorded(calls, owned)
    {
      assert events[..n + 1] == events[..n] + [events[n]];
      if OwnedCall(events, t, events[n]) {
        owned := RecordCall(calls, owned, events[n]);
        calls := calls + {events[n]};
      }
    }
    assert events[..|events|] == events;
  }

  /** The window's rows, in journal order. */
  method AcceptedWindow(events: seq<Event>, t: Turn) returns (window: seq<Event>)
    requires Ordered(events)
    ensures Ordered(window)
    ensures (set e | e in window) == Window(events, t)
  {
    hide OwnedCall, WithinBounds;
    var owned := OwnedCalls(events, t);
    var next := NextInput(events, t.source.seqNo, false);
    window := [];
    for n := 0 to |events|
      invariant forall e :: e in window <==> e in events[..n] && InWindow(events, t, e)
      invariant Ordered(window)
      invariant n < |events| ==> forall e | e in window :: e.seqNo < events[n].seqNo
    {
      var e := events[n];
      assert events[..n + 1] == events[..n] + [e];
      forall id, name ensures id in owned && owned[id] == Some(name) <==> SoleTool(events, t, id, name) {
        RecordedSoleTool(events, t, owned, id, name);
      }
      var attempt := OwnsAttempt(t, e);
      var mirrors := e.kind in {"tool_called", "tool_returned"} && e.accounting == "transport_mirror"
                     && exists id :: id in e.callIds && id in owned && owned[id] == Some(e.toolName);
      if WithinBounds(events, t, e)
         && (next.None? || e.seqNo < next.value || t.terminal == Some(e.seqNo)
             || (e.sourceUserSeq == Some(t.source.seqNo) && (if attempt.Some? then attempt.value else mirrors))) {
        window := window + [e];
      }
    }
    assert events[..|events|] == events;
  }

  // ---------------------------------------------------------------- what the fields say

  /** A later input of the wanted kind. */
  ghost predicate Later(i: Event, after: nat, humanOnly: bool) {
    i.kind == "user_input_received" && i.seqNo > after && (humanOnly ==> !i.synthetic)
  }

  /** What precedes the next input precedes every later one. */
  lemma {:induction false} NextInputIs(events: seq<Event>, after: nat, humanOnly: bool, x: nat)
    requires Ordered(events)
    ensures var next := NextInput(events, after, humanOnly);
            (next.Some? ==> x < next.value) <==> forall i | i in events && Later(i, after, humanOnly) :: x < i.seqNo
  {
    if events != [] {
      NextInputIs(events[1..], after, humanOnly, x);
      var first := events[0];
      assert forall i | i in events :: i == first || i in events[1..];
      assert forall i | i in events :: first.seqNo <= i.seqNo;
    }
  }

  /** Between the source and the next human input, at a readable time that is not
      after the turn's end. */
  ghost predicate InTime(events: seq<Event>, t: Turn, e: Event) {
    && t.source.seqNo <= e.seqNo && (forall i | i in events && Later(i, t.source.seqNo, true) :: e.seqNo < i.seqNo)
    && exists at :: e.at == Some(at) && (t.endMs == None || exists end :: t.endMs == Some(end) && at <= end)
  }

  /** The event names attempts, and all of them are the turn's. */
  ghost predicate NamesOwn(t: Turn, e: Event) {
    e.attempts != [] && forall k | 0 <= k < |e.attempts| :: IsOwn(t, e.attempts[k])
  }

  ghost predicate IsOwn(t: Turn, attempt: Option<string>) {
    exists id :: id in t.attemptIds && attempt == Some(id)
  }

  /** A top-level call that the turn owns uses this identity. */
  ghost predicate Calls(events: seq<Event>, t: Turn, call: Event, id: string) {
    && call in events && id in call.callIds && InTime(events, t, call) && call.kind == "tool_called"
    && call.accounting == "top_level" && call.sourceUserSeq == Some(t.source.seqNo) && NamesOwn(t, call)
  }

  /** A mirror of a call: some identity of it has one tool among the owned calls,
      and it is the event's. */
  ghost predicate Mirrors(events: seq<Event>, t: Turn, e: Event) {
    && (e.kind == "tool_called" || e.kind == "tool_returned") && e.accounting == "transport_mirror"
    && exists id :: id in e.callIds && (exists call :: Calls(events, t, call, id))
                    && forall call | Calls(events, t, call, id) :: call.toolName == e.toolName
  }

  lemma InTimeIs(events: seq<Event>, t: Turn, e: Event)
    requires Ordered(events)
    ensures WithinBounds(events, t, e) <==> InTime(events, t, e)
  {
    NextInputIs(events, t.source.seqNo, true, e.seqNo);
    hide NextInput, Later;
    if WithinBounds(events, t, e) {
      assert e.at == Some(e.at.value);
      assert t.endMs.Some? ==> t.endMs == Some(t.endMs.value);
    }
  }

  lemma NamesOwnIs(t: Turn, e: Event)
    ensures OwnsAttempt(t, e) == Some(true) <==> NamesOwn(t, e)
    ensures OwnsAttempt(t, e) == None <==> e.attempts == []
  {
    forall a ensures IsOwn(t, a) <==> a.Some? && a.value in t.attemptIds {
      if a.Some? && a.value in t.attemptIds {
        assert a == Some(a.value);
      }
    }
    hide IsOwn;
    if NamesOwn(t, e) {
      assert forall a | a in e.attempts :: IsOwn(t, a);
    }
    if OwnsAttempt(t, e) == Some(true) {
      assert forall k | 0 <= k < |e.attempts| :: e.attempts[k] in e.attempts;
    }
  }

  lemma CallsIs(events: seq<Event>, t: Turn, call: Event, id: string)
    requires Ordered(events)
    ensures Calls(events, t, call, id) <==> call in events && OwnedCall(events, t, call) && id in call.callIds
  {
    InTimeIs(events, t, call);
    NamesOwnIs(t, call);
    hide InTime, WithinBounds, NamesOwn, OwnsAttempt;
  }

  /** An event is in the window exactly when it is in time, and precedes the next
      input of any kind, or is the terminal, or belongs to the source by all the
      attempts it names, or, naming none, mirrors an owned call. */
  lemma InWindowIs(events: seq<Event>, t: Turn, e: Event)
    requires Ordered(events)
    ensures InWindow(events, t, e) <==>
              && InTime(events, t, e)
              && ((forall i | i in events && Later(i, t.source.seqNo, false) :: e.seqNo < i.seqNo)
                  || t.terminal == Some(e.seqNo)
                  || (e.sourceUserSeq == Some(t.source.seqNo)
                      && (NamesOwn(t, e) || (e.attempts == [] && Mirrors(events, t, e)))))
  {
    InTimeIs(events, t, e);
    NamesOwnIs(t, e);
    NextInputIs(events, t.source.seqNo, false, e.seqNo);
    forall call, id ensures Calls(events, t, call, id)
        <==> call in events && OwnedCall(events, t, call) && id in call.callIds {
      CallsIs(events, t, call, id);
    }
    hide InTime, WithinBounds, NamesOwn, OwnsAttempt, NextInput, Later, OwnedCall, Calls;
    MirrorsIs(events, t, e);
    hide Mirrors, MirrorsOwnedCall;
  }

  lemma MirrorsIs(events: seq<Event>, t: Turn, e: Event)
    requires forall call, id :: Calls(events, t, call, id)
                                <==> call in events && OwnedCall(events, t, call) && id in call.callIds
    ensures Mirrors(events, t, e) <==> MirrorsOwnedCall(events, t, e)
  {
    hide OwnedCall, Calls;
  }

  // ---------------------------------------------------------------- disjointness

  lemma {:induction false} NextInputIsFirst(events: seq<Event>, after: nat, human: Event)
    requires Ordered(events) && human in events && human.Human() && human.seqNo > after
    ensures var next := NextInput(events, after, true); next.Some? && next.value <= human.seqNo
  {
    if events[0] != human && !(events[0].seqNo > after && events[0].Human()) {
      NextInputIsFirst(events[1..], after, human);
    }
  }

  /** Two different human sources never share an event, whatever synthetic
      inputs, attempts and terminals lie between them. */
  lemma WindowsDisjoint(events: seq<Event>, a: Turn, b: Turn)
    requires Ordered(events)
    requires a.source in events && a.source.Human() && b.source in events && b.source.Human()
    requires a.source.seqNo != b.source.seqNo
    ensures Window(events, a) !! Window(events, b)
  {
    if a.source.seqNo < b.source.seqNo {
      NextInputIsFirst(events, a.source.seqNo, b.source);
    } else {
      NextInputIsFirst(events, b.source.seqNo, a.source);
    }
  }

  ghost predicate DistinctTurns(events: seq<Event>, turns: seq<Turn>) {
    && (forall t | t in turns :: t.source in events && t.source.Human())
    && (forall i, j | 0 <= i < j < |turns| :: turns[i].source.seqNo != turns[j].source.seqNo)
  }

  ghost predicate ToolRow(e: Event) {
    e.kind in {"tool_called", "tool_returned"}
  }

  ghost function ToolRows(events: set<Event>): set<Event> {
    set e | e in events && ToolRow(e)
  }

  ghost function SumOfToolRows(events: seq<Event>, turns: seq<Turn>): nat {
    if turns == [] then 0 else |ToolRows(Window(events, turns[0]))| + SumOfToolRows(events, turns[1..])
  }

  ghost function AllWindows(events: seq<Event>, turns: seq<Turn>): set<Event> {
    if turns == [] then {} else Window(events, turns[0]) + AllWindows(events, turns[1..])
  }

  lemma {:induction false} WindowApart(events: seq<Event>, t: Turn, turns: seq<Turn>)
    requires Ordered(events) && t.source in events && t.source.Human()
    requires forall u | u in turns :: u.source in events && u.source.Human() && u.source.seqNo != t.source.seqNo
    ensures Window(events, t) !! AllWindows(events, turns)
    ensures AllWindows(events, turns) <= set e | e in events
  {
    hide InWindow;
    if turns != [] {
      WindowsDisjoint(events, t, turns[0]);
      WindowApart(events, t, turns[1..]);
    }
  }

  /** Tool rows summed over any set of human turns never exceed the session's. */
  lemma {:induction false} ToolRowsNeverExceedSession(events: seq<Event>, turns: seq<Turn>)
    requires Ordered(events) && DistinctTurns(events, turns)
    ensures SumOfToolRows(events, turns) == |ToolRows(AllWindows(events, turns))|
    ensures SumOfToolRows(events, turns) <= |ToolRows(set e | e in events)|
  {
    var session := set e | e in events;
    if turns != [] {
      assert DistinctTurns(events, turns[1..]);
      ToolRowsNeverExceedSession(events, turns[1..]);
      WindowApart(events, turns[0], turns[1..]);
      var first, rest := ToolRows(Window(events, turns[0])), ToolRows(AllWindows(events, turns[1..]));
      assert ToolRows(AllWindows(events, turns)) == first + rest;
      assert first !! rest;
      assert ToolRows(AllWindows(events, turns)) <= ToolRows(session);
      SubsetSize(ToolRows(AllWindows(events, turns)), ToolRows(session));
    } else {
      assert ToolRows(AllWindows(events, turns)) == {};
    }
  }
}
