/** The last step of both usage selectors: every usage row has matched at most
    one response binding, and a row is exact only when it is the one row its
    binding has. `matched[i]` is the binding of row `i`, if any. */
module RowJoin {
  import opened Identifiers

  ghost predicate Sole<B(!new)>(matched: seq<Option<B>>, i: nat) {
    && i < |matched| && matched[i].Some?
    && forall j | 0 <= j < |matched| && j != i :: matched[j] != matched[i]
  }

  /** The rows that are the only match of one of the bindings `usable`. */
  ghost function SoleRows<B(!new)>(matched: seq<Option<B>>, usable: set<B>): set<nat> {
    set i: nat | i < |matched| && Sole(matched, i) && matched[i].value in usable
  }

  ghost predicate Unmatched<B(!new)>(matched: seq<Option<B>>, b: B) {
    Some(b) !in matched
  }

  ghost predicate MatchedTwice<B(!new)>(matched: seq<Option<B>>, b: B) {
    exists i, j :: 0 <= i < j < |matched| && matched[i] == matched[j] == Some(b)
  }

  /** The rows of one binding, in log order. */
  ghost function RowsFor<B>(matched: seq<Option<B>>, b: B): seq<nat> {
    if matched == [] then []
    else
      var n := |matched| - 1;
      RowsFor(matched[..n], b) + if matched[n] == Some(b) then [n] else []
  }

  lemma {:induction false} RowsForMembers<B>(matched: seq<Option<B>>, b: B)
    ensures forall i: nat :: i in RowsFor(matched, b) <==> i < |matched| && matched[i] == Some(b)
    ensures Increasing(RowsFor(matched, b))
  {
    if matched != [] {
      var n := |matched| - 1;
      RowsForMembers(matched[..n], b);
      var rest := RowsFor(matched[..n], b);
      forall k | 0 <= k < |rest| ensures rest[k] < n {
        assert rest[k] in rest;
      }
    }
  }

  lemma RowAt<B>(matched: seq<Option<B>>, b: B, k: nat)
    requires k < |RowsFor(matched, b)|
    ensures var i := RowsFor(matched, b)[k]; i < |matched| && matched[i] == Some(b)
  {
  }

  lemma NoRow<B(!new)>(matched: seq<Option<B>>, b: B)
    ensures |RowsFor(matched, b)| == 0 <==> Unmatched(matched, b)
  {
  }

  lemma SeveralRows<B(!new)>(matched: seq<Option<B>>, b: B)
    ensures |RowsFor(matched, b)| > 1 <==> MatchedTwice(matched, b)
  {
    RowsForMembers(matched, b);
    var rows := RowsFor(matched, b);
    if |rows| > 1 {
      RowAt(matched, b, 0);
      RowAt(matched, b, 1);
    }
    if i, j :| 0 <= i < j < |matched| && matched[i] == matched[j] == Some(b) {
      assert i in rows && j in rows;
    }
  }

  lemma OneRow<B(!new)>(matched: seq<Option<B>>, b: B, i: nat)
    ensures Sole(matched, i) && matched[i] == Some(b) <==> RowsFor(matched, b) == [i]
  {
    RowsForMembers(matched, b);
    var rows := RowsFor(matched, b);
    if rows == [i] {
      RowAt(matched, b, 0);
      assert forall j | 0 <= j < |matched| && matched[j] == Some(b) :: j in rows;
    }
    if Sole(matched, i) && matched[i] == Some(b) {
      assert i in rows;
      RowAt(matched, b, 0);
      RowAt(matched, b, |rows| - 1);
      assert rows[0] == i && rows[|rows| - 1] == i;
    }
  }

  /** `rowsByBinding.get(b) ?? []` */
  function RowsOf<B(==)>(rowsByBinding: map<B, seq<nat>>, b: B): seq<nat> {
    if b in rowsByBinding then rowsByBinding[b] else []
  }

  ghost predicate Recorded<B(!new)>(matched: seq<Option<B>>, rowsByBinding: map<B, seq<nat>>) {
    forall b :: RowsOf(rowsByBinding, b) == RowsFor(matched, b)
  }

  function AddRow<B(==)>(rowsByBinding: map<B, seq<nat>>, key: Option<B>, n: nat): map<B, seq<nat>> {
    if key.None? then rowsByBinding else rowsByBinding[key.value := RowsOf(rowsByBinding, key.value) + [n]]
  }

  lemma AddRowRecorded<B(!new)>(matched: seq<Option<B>>, rowsByBinding: map<B, seq<nat>>, key: Option<B>)
    requires Recorded(matched, rowsByBinding)
    ensures Recorded(matched + [key], AddRow(rowsByBinding, key, |matched|))
  {
  }

  /** Visit the uncontested bindings in any order and certify their sole rows. */
  method Certify<B(==,!new)>(usable: set<B>, related: set<nat>, rowsByBinding: map<B, seq<nat>>,
      ghost matched: seq<Option<B>>)
    returns (exact: set<nat>, unproven: set<nat>, duplicated: set<B>, unused: set<B>)
    requires Recorded(matched, rowsByBinding)
    ensures exact == SoleRows(matched, usable)
    ensures unproven == related - exact
    ensures forall b :: b in duplicated <==> b in usable && MatchedTwice(matched, b)
    ensures forall b :: b in unused <==> b in usable && Unmatched(matched, b)
  {
    exact, unproven, duplicated, unused := {}, related, {}, {};
    var todo := usable;
    while todo != {}
      invariant todo <= usable
      invariant exact == SoleRows(matched, usable - todo)
      invariant unproven == related - exact
      invariant forall b :: b in duplicated <==> b in usable - todo && MatchedTwice(matched, b)
      invariant forall b :: b in unused <==> b in usable - todo && Unmatched(matched, b)
    {
      var b :| b in todo;
      var indices := RowsOf(rowsByBinding, b);
      assert usable - (todo - {b}) == usable - todo + {b};
      SoleRowsStep(matched, usable - todo, b);
      NoRow(matched, b);
      SeveralRows(matched, b);
      todo := todo - {b};
      if |indices| == 1 {
        exact, unproven := exact + {indices[0]}, unproven - {indices[0]};
      } else if |indices| > 1 {
        duplicated := duplicated + {b};
      } else {
        unused := unused + {b};
      }
    }
    assert usable - todo == usable;
  }

  lemma SoleRowsStep<B(!new)>(matched: seq<Option<B>>, usable: set<B>, b: B)
    ensures SoleRows(matched, usable + {b}) ==
            SoleRows(matched, usable) + if |RowsFor(matched, b)| == 1 then {RowsFor(matched, b)[0]} else {}
  {
    var rows := RowsFor(matched, b);
    if |rows| == 1 {
      OneRow(matched, b, rows[0]);
    }
    forall i | i in SoleRows(matched, usable + {b}) && i !in SoleRows(matched, usable) ensures rows == [i] {
      OneRow(matched, b, i);
    }
  }
}
