/** The approval continuations of one accepted source
    (scripts/session-comparison.ts, readAcceptedApprovalGraph and the two
    ancestor walks of measureAcceptedTask). One ordered pass over the session's
    inputs computes both lineages; here each is compared with its fixpoint. */
module ApprovalClosure {
  import opened Identifiers
  import opened Chains

  datatype Input = Input(seqNo: nat, role: string, approvalId: Option<string>, decision: Option<string>)

  /** A system `run_resumed` event. */
  datatype Resume = Resume(seqNo: nat, version: Option<int>, delivery: Option<int>, execution: Option<int>,
                           approvalId: Option<string>, decision: Option<string>)

  /** The stored times of an approval card, as far as they are readable. */
  datatype Card = Card(requestedAt: Option<string>, resolvedAt: Option<string>)

  datatype Continuation = Continuation(approvalId: string, control: nat, execution: nat, resumes: seq<nat>, card: Card)

  datatype Issue = UnprovedContinuation(source: nat) | UnprovedResume(resume: nat)

  /** The session's inputs in event order, its resumes, the recorded execution
      source of each control (`None` when it cannot be read), and the cards. */
  datatype Session = Session(
    inputs: seq<Input>, resumes: seq<Resume>, executionSource: nat -> Option<nat>, cards: map<string, Card>, root: nat)
  {
    /** Event sequences are the primary key and the read is ordered by them. */
    ghost predicate Ordered() {
      forall i, j | 0 <= i < j < |inputs| :: inputs[i].seqNo < inputs[j].seqNo
    }

    ghost predicate ClaimEdge(parent: nat, child: nat) {
      && parent < child
      && exists r :: r in resumes && r.delivery == Some(child)
           && r.execution == Some(parent as int) && 0 < parent <= MAX_SAFE_INTEGER
    }

    ghost predicate UserInput(source: Input) {
      source in inputs && source.seqNo > root && source.role == "user"
    }

    /** Least fixpoint: reachable from the root by claims naming an earlier parent. */
    ghost predicate Claimed(n: nat) {
      n == root || exists source, parent: nat ::
                     UserInput(source) && source.seqNo == n && parent < n && ClaimEdge(parent, n) && Claimed(parent)
    }

    /** Every claim agrees with the control and with its recorded parent. */
    ghost predicate ClaimsAgree(source: Input, parent: nat) {
      forall r | r in resumes && r.delivery == Some(source.seqNo as int) ::
        && r.version == Some(1) && r.execution == Some(parent as int)
        && r.approvalId == Some(ApprovalId(source)) && r.decision == source.decision && source.seqNo < r.seqNo
    }

    ghost predicate SoleControl(source: Input) {
      |Controls(ApprovalId(source))| == 1
    }

    function Controls(approvalId: string): seq<Input> {
      Filter(inputs, approvalId)
    }

    /** Least fixpoint of the authoritative lineage. */
    ghost predicate Member(n: nat) {
      n == root || exists source, parent: nat ::
        && UserInput(source) && source.seqNo == n && Claimed(n)
        && executionSource(n) == Some(parent) && parent < n && Member(parent)
        && SoleControl(source) && ClaimsAgree(source, parent)
    }
  }

  function Filter(inputs: seq<Input>, approvalId: string): seq<Input> {
    if inputs == [] then []
    else (if inputs[0].approvalId == Some(approvalId) then [inputs[0]] else []) + Filter(inputs[1..], approvalId)
  }

  function ApprovalId(source: Input): string {
    if source.approvalId.Some? then source.approvalId.value else ""
  }

  /** The resume events that deliver to one control, in event order. */
  function ResumesOf(resumes: seq<Resume>, control: nat): (r: seq<nat>)
    ensures forall q :: q in r <==> exists e :: e in resumes && e.delivery == Some(control as int) && e.seqNo == q
  {
    if resumes == [] then []
    else
      var last := resumes[|resumes| - 1];
      ResumesOf(resumes[..|resumes| - 1], control) + if last.delivery == Some(control as int) then [last.seqNo] else []
  }

  function Continue(s: Session, source: Input, parent: nat): Continuation {
    var id := ApprovalId(source);
    Continuation(id, source.seqNo, parent, ResumesOf(s.resumes, source.seqNo),
                 if id in s.cards then s.cards[id] else Card(None, None))
  }

  // ---------------------------------------------------------------- the ordered pass

  ghost function ClaimedUpTo(s: Session, n: nat): set<nat>
    requires n <= |s.inputs|
  {
    {s.root} + set i | 0 <= i < n && s.inputs[i].seqNo > s.root && s.Claimed(s.inputs[i].seqNo) :: s.inputs[i].seqNo
  }

  ghost function MembersUpTo(s: Session, n: nat): set<nat>
    requires n <= |s.inputs|
  {
    {s.root} + set i | 0 <= i < n && s.inputs[i].seqNo > s.root && s.Member(s.inputs[i].seqNo) :: s.inputs[i].seqNo
  }

  lemma {:induction false} MembersAreClaimed(s: Session, n: nat)
    requires s.Member(n)
    ensures s.Claimed(n)
  {
  }

  method HasRelatedClaim(s: Session, source: Input, claimed: set<nat>) returns (related: bool)
    ensures related <==> exists parent :: parent in claimed && s.ClaimEdge(parent, source.seqNo)
  {
    related := false;
    for i := 0 to |s.resumes|
      invariant related <==> exists j, parent: nat :: 0 <= j < i && parent in claimed && parent < source.seqNo
                               && s.resumes[j].delivery == Some(source.seqNo as int)
                               && s.resumes[j].execution == Some(parent as int) && 0 < parent <= MAX_SAFE_INTEGER
    {
      var r := s.resumes[i];
      if r.delivery == Some(source.seqNo as int) && r.execution.Some? && 0 < r.execution.value <= MAX_SAFE_INTEGER
         && r.execution.value < source.seqNo && r.execution.value in claimed {
        related := true;
      }
    }
    if related {
      var j, parent: nat :| 0 <= j < |s.resumes| && parent in claimed && parent < source.seqNo
                       && s.resumes[j].delivery == Some(source.seqNo as int)
                       && s.resumes[j].execution == Some(parent as int) && 0 < parent <= MAX_SAFE_INTEGER;
      assert s.ClaimEdge(parent, source.seqNo);
    }
    if parent :| parent in claimed && s.ClaimEdge(parent, source.seqNo) {
      var r :| r in s.resumes && r.delivery == Some(source.seqNo as int) && r.execution == Some(parent as int);
      var j :| 0 <= j < |s.resumes| && s.resumes[j] == r;
    }
  }

  method ClaimsConflict(s: Session, source: Input, parent: nat) returns (conflict: bool)
    ensures conflict <==> !s.ClaimsAgree(source, parent)
  {
    for i := 0 to |s.resumes|
      invariant forall j | 0 <= j < i && s.resumes[j].delivery == Some(source.seqNo as int) ::
                  && s.resumes[j].version == Some(1) && s.resumes[j].execution == Some(parent as int)
                  && s.resumes[j].approvalId == Some(ApprovalId(source)) && s.resumes[j].decision == source.decision
                  && source.seqNo < s.resumes[j].seqNo
    {
      var r := s.resumes[i];
      if r.delivery == Some(source.seqNo as int) && (r.version != Some(1) || r.execution != Some(parent as int)
         || r.approvalId != Some(ApprovalId(source)) || r.decision != source.decision || r.seqNo <= source.seqNo) {
        assert r in s.resumes;
        return true;
      }
    }
    return false;
  }

  lemma IndexOf(s: Session, source: Input) returns (i: nat)
    requires source in s.inputs
    ensures i < |s.inputs| && s.inputs[i] == source
  {
    i :| 0 <= i < |s.inputs| && s.inputs[i] == source;
  }

  /** An earlier claimed source has already been visited, or is the root. */
  lemma ClaimedBefore(s: Session, n: nat, parent: nat)
    requires s.Ordered() && n < |s.inputs| && parent < s.inputs[n].seqNo
    ensures s.Claimed(parent) && parent != s.root ==> parent in ClaimedUpTo(s, n)
    ensures s.Member(parent) && parent != s.root ==> parent in MembersUpTo(s, n)
  {
  }

  lemma SameInput(s: Session, n: nat, source: Input)
    requires s.Ordered() && n < |s.inputs| && source in s.inputs && source.seqNo == s.inputs[n].seqNo
    ensures source == s.inputs[n]
  {
  }

  ghost predicate RelatedTo(s: Session, source: Input, claimed: set<nat>) {
    source.seqNo > s.root && source.role == "user" && exists parent ::
                                                        parent in claimed && s.ClaimEdge(parent, source.seqNo)
  }

  lemma ClaimedDecides(s: Session, n: nat)
    requires s.Ordered() && n < |s.inputs| && s.inputs[n].seqNo > s.root
    ensures s.Claimed(s.inputs[n].seqNo) <==> RelatedTo(s, s.inputs[n], ClaimedUpTo(s, n))
  {
  }

  /** The conditions under which the pass admits a related control. */
  ghost predicate Admits(s: Session, source: Input, members: set<nat>) {
    && s.executionSource(source.seqNo).Some?
    && s.executionSource(source.seqNo).value in members
    && s.SoleControl(source) && s.ClaimsAgree(source, s.executionSource(source.seqNo).value)
  }

  lemma MemberDecides(s: Session, n: nat)
    requires s.Ordered() && n < |s.inputs| && s.inputs[n].seqNo > s.root
    ensures s.Member(s.inputs[n].seqNo) <==>
              RelatedTo(s, s.inputs[n], ClaimedUpTo(s, n)) && Admits(s, s.inputs[n], MembersUpTo(s, n))
  {
    hide RelatedTo, Session.ClaimEdge;
    var source := s.inputs[n];
    ClaimedDecides(s, n);
    if s.Claimed(source.seqNo) && Admits(s, source, MembersUpTo(s, n)) {
      var parent := s.executionSource(source.seqNo).value;
      assert s.Member(parent) && parent < source.seqNo;
      assert s.UserInput(source);
    }
    if s.Member(source.seqNo) {
      MembersAreClaimed(s, source.seqNo);
      var p, parent: nat :| s.UserInput(p) && p.seqNo == source.seqNo && s.executionSource(source.seqNo) == Some(parent)
                            && parent < p.seqNo && s.Member(parent) && s.SoleControl(p) && s.ClaimsAgree(p, parent);
      SameInput(s, n, p);
      ClaimedBefore(s, n, parent);
      assert parent in MembersUpTo(s, n);
    }
  }

  lemma UpToStep(s: Session, n: nat)
    requires n < |s.inputs|
    ensures ClaimedUpTo(s, n + 1) == ClaimedUpTo(s, n) +
              if s.inputs[n].seqNo > s.root && s.Claimed(s.inputs[n].seqNo) then {s.inputs[n].seqNo} else {}
    ensures MembersUpTo(s, n + 1) == MembersUpTo(s, n) +
              if s.inputs[n].seqNo > s.root && s.Member(s.inputs[n].seqNo) then {s.inputs[n].seqNo} else {}
  {
  }

  /** The continuations found so far: one per admitted control, in event order,
      each naming the control's approval, its recorded execution source, the
      resumes that deliver to it and the times of its card. */
  ghost predicate Linked(s: Session, members: set<nat>, parents: map<nat, nat>, continuations: seq<Continuation>) {
    && parents.Keys == members - {s.root}
    && (forall n | n in parents :: s.executionSource(n) == Some(parents[n]) && parents[n] in members && parents[n] < n)
    && (set c | c in continuations :: c.control) == parents.Keys
    && (forall c | c in continuations :: c.control in parents
          && exists source ::
               source in s.inputs && source.seqNo == c.control && c == Continue(s, source, parents[c.control]))
    && (forall i, j | 0 <= i < j < |continuations| :: continuations[i].control < continuations[j].control)
  }

  lemma LinkNext(s: Session, members: set<nat>, parents: map<nat, nat>, continuations: seq<Continuation>, source: Input)
    requires Linked(s, members, parents, continuations) && s.root in members
    requires source in s.inputs && source.seqNo > s.root && (forall m | m in members :: m < source.seqNo)
             && Admits(s, source, members)
    ensures var parent := s.executionSource(source.seqNo).value;
            Linked(s, members + {source.seqNo}, parents[source.seqNo := parent],
                   continuations + [Continue(s, source, parent)])
  {
    hide Session.SoleControl, Session.ClaimsAgree, Continue;
    assert Continue(s, source, s.executionSource(source.seqNo).value).control == source.seqNo by {
      ContinueControl(s, source);
    }
  }

  lemma ContinueControl(s: Session, source: Input)
    ensures forall parent :: Continue(s, source, parent).control == source.seqNo
  {
  }

  /** The one ordered pass: both lineages equal their fixpoints. */
  method ReadApprovalGraph(s: Session)
    returns (members: set<nat>, claimed: set<nat>, parents: map<nat, nat>, continuations: seq<Continuation>,
        issues: set<Issue>)
    requires s.Ordered()
    ensures forall n :: n in claimed <==> s.Claimed(n)
    ensures forall n :: n in members <==> s.Member(n)
    ensures Linked(s, members, parents, continuations)
    ensures forall n :: UnprovedContinuation(n) in issues <==> n in claimed && n !in members
    ensures forall q :: UnprovedResume(q) in issues <==>
              exists r :: r in s.resumes && r.seqNo == q && (exists m :: r.execution == Some(m) && m in members)
                          && forall m | m in members :: r.delivery != Some(m as int)
  {
    hide RelatedTo, Admits, Linked, Continue, Session.Claimed, Session.Member, Session.ClaimsAgree, Session.SoleControl;
    members, claimed, parents, continuations, issues := {s.root}, {s.root}, map[], [], {};
    assert Linked(s, members, parents, continuations) by {
      NothingLinked(s);
    }
    for n := 0 to |s.inputs|
      invariant claimed == ClaimedUpTo(s, n) && members == MembersUpTo(s, n)
      invariant members <= claimed
      invariant n < |s.inputs| ==> forall m | m in members && m > s.root :: m < s.inputs[n].seqNo
      invariant Linked(s, members, parents, continuations)
      invariant forall i | i in issues :: i.UnprovedContinuation?
      invariant forall m :: UnprovedContinuation(m) in issues <==> m in claimed && m !in members
    {
      var source := s.inputs[n];
      UpToStep(s, n);
      if source.seqNo <= s.root {
        continue;
      }
      ClaimedDecides(s, n);
      MemberDecides(s, n);
      if source.role != "user" {
        UnrelatedRole(s, source, claimed);
        continue;
      }
      var related := HasRelatedClaim(s, source, claimed);
      RelatedMeans(s, source, claimed);
      if !related {
        continue;
      }
      claimed := claimed + {source.seqNo};
      var admitted := AdmitControl(s, source, members);
      if !admitted {
        issues := issues + {UnprovedContinuation(source.seqNo)};
        continue;
      }
      var parent := ParentOf(s, source, members);
      LinkNext(s, members, parents, continuations, source);
      members := members + {source.seqNo};
      parents := parents[source.seqNo := parent];
      continuations := continuations + [Continue(s, source, parent)];
    }
    PassComplete(s);
    var resumeIssues := ResumeIssues(s, members);
    InSetMeans(members);
    hide InSet;
    issues := issues + resumeIssues;
  }

  lemma PassComplete(s: Session)
    ensures forall n :: n in ClaimedUpTo(s, |s.inputs|) <==> s.Claimed(n)
    ensures forall n :: n in MembersUpTo(s, |s.inputs|) <==> s.Member(n)
  {
  }

  function ParentOf(s: Session, source: Input, members: set<nat>): nat
    requires Admits(s, source, members)
  {
    s.executionSource(source.seqNo).value
  }

  lemma NothingLinked(s: Session)
    ensures Linked(s, {s.root}, map[], [])
  {
  }

  lemma UnrelatedRole(s: Session, source: Input, claimed: set<nat>)
    requires source.role != "user"
    ensures !RelatedTo(s, source, claimed)
  {
  }

  lemma RelatedMeans(s: Session, source: Input, claimed: set<nat>)
    requires source.role == "user" && source.seqNo > s.root
    ensures RelatedTo(s, source, claimed) <==> exists parent :: parent in claimed && s.ClaimEdge(parent, source.seqNo)
  {
  }

  method AdmitControl(s: Session, source: Input, members: set<nat>) returns (admitted: bool)
    ensures admitted <==> Admits(s, source, members)
  {
    var parent := s.executionSource(source.seqNo);
    if parent.None? || parent.value !in members || |s.Controls(ApprovalId(source))| != 1 {
      return false;
    }
    var conflict := ClaimsConflict(s, source, parent.value);
    return !conflict;
  }

  predicate InSet(x: Option<int>, members: set<nat>) {
    x.Some? && x.value in members
  }

  lemma InSetMeans(members: set<nat>)
    ensures forall x :: InSet(x, members) <==> exists m :: x == Some(m) && m in members
    ensures forall x :: !InSet(x, members) <==> forall m | m in members :: x != Some(m as int)
  {
    forall x ensures InSet(x, members) <==> exists m :: x == Some(m) && m in members {
      if InSet(x, members) {
        assert x == Some(x.value);
      }
    }
  }

  /** A control is sole exactly when one input has its approval, or, where it names
      none, the empty one. */
  lemma SoleControlIs(s: Session, source: Input)
    requires s.Ordered()
    ensures s.SoleControl(source) <==>
              var id := match source.approvalId case Some(text) => text case None => "";
              exists x :: x in s.inputs && x.approvalId == Some(id)
                          && forall y | y in s.inputs && y.approvalId == Some(id) :: y == x
  {
    var id := match source.approvalId case Some(text) => text case None => "";
    FilterIs(s.inputs, id);
    SoleOfAscending(s.Controls(id));
    hide Filter;
  }

  lemma SoleOfAscending(inputs: seq<Input>)
    requires Ascends(inputs)
    ensures |inputs| == 1 <==> exists x :: x in inputs && forall y | y in inputs :: y == x
  {
    hide Ascends;
    if |inputs| == 1 {
      var x := inputs[0];
      assert x in inputs;
      forall y | y in inputs ensures y == x {
        var i :| 0 <= i < |inputs| && inputs[i] == y;
      }
    } else if x :| x in inputs && forall y | y in inputs :: y == x {
      OnlyOne(inputs, x);
    }
  }

  lemma OnlyOne(inputs: seq<Input>, x: Input)
    requires Ascends(inputs) && x in inputs && forall y | y in inputs :: y == x
    ensures |inputs| == 1
  {
    forall i | 0 <= i < |inputs| ensures inputs[i] == x {
      assert inputs[i] in inputs;
    }
    if |inputs| > 1 {
      SecondIsLater(inputs);
    }
  }

  lemma SecondIsLater(inputs: seq<Input>)
    requires Ascends(inputs) && |inputs| > 1
    ensures inputs[0].seqNo < inputs[1].seqNo
  {
  }

  ghost predicate Ascends(inputs: seq<Input>) {
    forall i, j | 0 <= i < j < |inputs| :: inputs[i].seqNo < inputs[j].seqNo
  }

  lemma RestAscends(inputs: seq<Input>)
    requires Ascends(inputs) && inputs != []
    ensures Ascends(inputs[1..]) && forall x | x in inputs[1..] :: inputs[0].seqNo < x.seqNo
  {
  }

  lemma {:induction false} FilterIs(inputs: seq<Input>, approvalId: string)
    requires Ascends(inputs)
    ensures forall x :: x in Filter(inputs, approvalId) <==> x in inputs && x.approvalId == Some(approvalId)
    ensures Ascends(Filter(inputs, approvalId))
  {
    hide Ascends;
    if inputs == [] {
      NoneAscends();
    } else {
      var first, rest := inputs[0], Filter(inputs[1..], approvalId);
      RestAscends(inputs);
      FilterIs(inputs[1..], approvalId);
      FirstAscends(first, rest);
      assert [] + rest == rest && inputs == [first] + inputs[1..];
    }
  }

  lemma NoneAscends()
    ensures Ascends([])
  {
  }

  lemma FirstAscends(first: Input, rest: seq<Input>)
    requires (forall x | x in rest :: first.seqNo < x.seqNo) && Ascends(rest)
    ensures Ascends([first] + rest)
  {
    var r := [first] + rest;
    forall i, j | 0 <= i < j < |r| ensures r[i].seqNo < r[j].seqNo {
      assert r[j] == rest[j - 1] && r[j] in rest;
    }
  }

  method ResumeIssues(s: Session, members: set<nat>) returns (issues: set<Issue>)
    ensures forall i | i in issues :: i.UnprovedResume?
    ensures forall q :: UnprovedResume(q) in issues <==>
              exists r :: r in s.resumes && r.seqNo == q && InSet(r.execution, members) && !InSet(r.delivery, members)
  {
    issues := {};
    for i := 0 to |s.resumes|
      invariant forall x | x in issues :: x.UnprovedResume?
      invariant forall q :: UnprovedResume(q) in issues <==>
                  exists j :: 0 <= j < i &&
                    s.resumes[j].seqNo == q && InSet(s.resumes[j].execution, members)
                    && !InSet(s.resumes[j].delivery, members)
    {
      var r := s.resumes[i];
      if InSet(r.execution, members) && !InSet(r.delivery, members) {
        issues := issues + {UnprovedResume(r.seqNo)};
      }
    }
  }

  // ---------------------------------------------------------------- what a continuation says

  /** `numbers` are the sequences of the resumes that deliver to the control: all
      of them, each once, in event order; `at` are their positions. */
  ghost predicate Delivering(resumes: seq<Resume>, control: nat, numbers: seq<nat>, at: seq<nat>) {
    && |at| == |numbers|
    && (forall i | 0 <= i < |at| ::
          at[i] < |resumes| && resumes[at[i]].delivery == Some(control as int) && numbers[i] == resumes[at[i]].seqNo)
    && (forall i, j | 0 <= i < j < |at| :: at[i] < at[j])
    && (forall k | 0 <= k < |resumes| && resumes[k].delivery == Some(control as int) :: k in at)
  }

  lemma DeliveringNext(resumes: seq<Resume>, control: nat, numbers: seq<nat>, at: seq<nat>, last: Resume)
    requires Delivering(resumes, control, numbers, at)
    ensures if last.delivery == Some(control as int)
            then Delivering(resumes + [last], control, numbers + [last.seqNo], at + [|resumes|])
            else Delivering(resumes + [last], control, numbers, at)
  {
    assert forall k | k in at :: k in at + [|resumes|];
    assert (at + [|resumes|])[|at|] == |resumes|;
  }

  lemma {:induction false} ResumesInOrder(resumes: seq<Resume>, control: nat) returns (at: seq<nat>)
    ensures Delivering(resumes, control, ResumesOf(resumes, control), at)
  {
    if resumes == [] {
      at := [];
    } else {
      hide Delivering;
      var init, last := resumes[..|resumes| - 1], resumes[|resumes| - 1];
      var before := ResumesInOrder(init, control);
      DeliveringNext(init, control, ResumesOf(init, control), before, last);
      assert resumes == init + [last];
      assert ResumesOf(init, control) + [] == ResumesOf(init, control);
      at := if last.delivery == Some(control as int) then before + [|init|] else before;
    }
  }

  /** Every continuation is read off the tables: its control's approval, the
      recorded execution source, the stored times of the approval's card, and the
      resumes that deliver to the control. */
  lemma ContinuationFields(s: Session, members: set<nat>, parents: map<nat, nat>, continuations: seq<Continuation>,
      c: Continuation)
    returns (at: seq<nat>)
    requires s.Ordered() && Linked(s, members, parents, continuations) && c in continuations
    ensures c.control in parents && c.execution == parents[c.control]
    ensures forall source | source in s.inputs && source.seqNo == c.control ::
              c.approvalId == (match source.approvalId case Some(id) => id case None => "")
    ensures exists source :: source in s.inputs && source.seqNo == c.control
    ensures c.card.requestedAt == (if c.approvalId in s.cards then s.cards[c.approvalId].requestedAt else None)
    ensures c.card.resolvedAt == (if c.approvalId in s.cards then s.cards[c.approvalId].resolvedAt else None)
    ensures Delivering(s.resumes, c.control, c.resumes, at)
  {
    at := ResumesInOrder(s.resumes, c.control);
    var source :| source in s.inputs && source.seqNo == c.control && c == Continue(s, source, parents[c.control]);
    var n :| 0 <= n < |s.inputs| && s.inputs[n] == source;
    forall other | other in s.inputs && other.seqNo == c.control ensures other == source {
      SameInput(s, n, other);
    }
  }

  // ---------------------------------------------------------------- what the lineages are

  /** A path of claims from the root, each naming an earlier parent. */
  ghost predicate ClaimPath(s: Session, path: seq<nat>) {
    && path != [] && path[0] == s.root
    && forall i | 0 < i < |path| ::
         s.ClaimEdge(path[i - 1], path[i]) && exists source :: s.UserInput(source) && source.seqNo == path[i]
  }

  /** Claimed sources are exactly those that some claim path reaches. */
  lemma {:induction false} ClaimedIffPath(s: Session, n: nat)
    ensures s.Claimed(n) <==> exists path: seq<nat> :: ClaimPath(s, path) && path[|path| - 1] == n
  {
    if s.Claimed(n) {
      var path := PathTo(s, n);
    }
    if path: seq<nat> :| ClaimPath(s, path) && path[|path| - 1] == n {
      PathClaims(s, path);
    }
  }

  lemma {:induction false} PathTo(s: Session, n: nat) returns (path: seq<nat>)
    requires s.Claimed(n)
    ensures ClaimPath(s, path) && path[|path| - 1] == n
  {
    if n == s.root {
      path := [n];
    } else {
      var source, parent: nat :| s.UserInput(source) && source.seqNo == n && parent < n && s.ClaimEdge(parent, n)
          && s.Claimed(parent);
      path := PathTo(s, parent);
      path := path + [n];
    }
  }

  lemma {:induction false} PathClaims(s: Session, path: seq<nat>)
    requires ClaimPath(s, path)
    ensures s.Claimed(path[|path| - 1])
    decreases |path|
  {
    if |path| > 1 {
      PathClaims(s, path[..|path| - 1]);
      var parent, n := path[|path| - 2], path[|path| - 1];
      var source :| s.UserInput(source) && source.seqNo == n;
      assert s.ClaimEdge(parent, n) && s.Claimed(parent);
    }
  }

  function ParentStep<K(!new)>(parents: map<K, K>): K -> Option<K> {
    k => if k in parents then Some(parents[k]) else None
  }

  /** The members form a tree: every parent chain leads to the root. */
  lemma {:induction false} MembersReachRoot(s: Session, members: set<nat>, parents: map<nat, nat>,
      continuations: seq<Continuation>, n: nat)
    requires Linked(s, members, parents, continuations) && n in members
    ensures Reaches(ParentStep(parents), Some(n), s.root)
  {
    if n == s.root {
      assert At(ParentStep(parents), Some(n), 0) == Some(s.root);
    } else {
      MembersReachRoot(s, members, parents, continuations, parents[n]);
      ReachesFromParent(parents, n, s.root);
    }
  }

  lemma ReachesFromParent<K(!new)>(parents: map<K, K>, k: K, a: K)
    requires k in parents
    ensures Reaches(ParentStep(parents), Some(k), a) <==> k == a || Reaches(ParentStep(parents), Some(parents[k]), a)
  {
    ReachesFirst(ParentStep(parents), k, a);
  }

  lemma ReachesOnlyItself<K(!new)>(parents: map<K, K>, k: K, a: K)
    requires k !in parents
    ensures Reaches(ParentStep(parents), Some(k), a) <==> k == a
  {
    ReachesFirst(ParentStep(parents), k, a);
    ReachesNone(ParentStep(parents), a);
  }

  /** The plain ancestor walk: it halts because every parent is smaller. */
  method IsAncestor(parents: map<nat, nat>, ancestor: nat, descendant: nat) returns (r: bool)
    requires forall n | n in parents :: parents[n] < n
    ensures r <==> Reaches(ParentStep(parents), Some(descendant), ancestor)
  {
    var current := descendant;
    while current != ancestor
      invariant Reaches(ParentStep(parents), Some(descendant), ancestor)
                <==> Reaches(ParentStep(parents), Some(current), ancestor)
      decreases current
    {
      if current !in parents {
        ReachesOnlyItself(parents, current, ancestor);
        return false;
      }
      ReachesFromParent(parents, current, ancestor);
      current := parents[current];
    }
    assert At(ParentStep(parents), Some(current), 0) == Some(ancestor);
    return true;
  }

  /** The visited-set walk over any parent map, cyclic or not. */
  method IsUsageAncestor(parents: map<string, string>, ancestor: string, descendant: string) returns (r: bool)
    ensures r <==> Reaches(ParentStep(parents), Some(descendant), ancestor)
  {
    hide Visited;
    var current, visited := Some(descendant), {};
    ghost var step := ParentStep(parents);
    ghost var trace: seq<string> := [];
    AtStart(step, current);
    VisitNone(step, current);
    while current.Some? && current.value !in visited
      invariant current == At(step, Some(descendant), |trace|)
      invariant Visited(step, Some(descendant), trace, visited)
      invariant ancestor !in visited
      invariant current.Some? ==> current.value in parents.Values + {descendant}
      decreases parents.Values + {descendant} - visited
    {
      if current.value == ancestor {
        return true;
      }
      VisitNext(step, Some(descendant), trace, visited, current.value);
      AtNext(step, Some(descendant), |trace|, current.value);
      trace, visited := trace + [current.value], visited + {current.value};
      current := if current.value in parents then Some(parents[current.value]) else None;
    }
    StopSeesAll(step, Some(descendant), trace, visited);
    return false;
  }

  /** The usage walk over the joined parent map agrees with the plain walk on
      the members, whatever other sources the joined map links. */
  lemma {:induction false} UsageAncestryAgrees(s: Session, members: set<nat>, parents: map<nat, nat>,
      continuations: seq<Continuation>,
                             sessionId: string, joined: map<string, string>, ancestor: nat, descendant: nat)
    requires Linked(s, members, parents, continuations) && descendant in members
    requires forall n | n in parents ::
               SourceKey(sessionId, n) in joined && joined[SourceKey(sessionId, n)] == SourceKey(sessionId, parents[n])
    requires SourceKey(sessionId, s.root) !in joined
    ensures Reaches(ParentStep(joined), Some(SourceKey(sessionId, descendant)), SourceKey(sessionId, ancestor)) <==>
            Reaches(ParentStep(parents), Some(descendant), ancestor)
    decreases descendant
  {
    var key := SourceKey(sessionId, descendant);
    assert key == SourceKey(sessionId, ancestor) <==> descendant == ancestor by {
      if key == SourceKey(sessionId, ancestor) {
        SourceKeyInjective(sessionId, descendant, sessionId, ancestor);
      }
    }
    if descendant in parents {
      UsageAncestryAgrees(s, members, parents, continuations, sessionId, joined, ancestor, parents[descendant]);
      ReachesFromParent(parents, descendant, ancestor);
      ReachesFromParent(joined, key, SourceKey(sessionId, ancestor));
    } else {
      ReachesOnlyItself(parents, descendant, ancestor);
      ReachesOnlyItself(joined, key, SourceKey(sessionId, ancestor));
    }
  }
}
