/** What decides one link of the worker lineage, read off the tables
    (scripts/session-comparison.ts, readWorkerUsageGraph): which children a parent
    names, which markers have one owner, whose attempts are trusted, and when a
    dispatch lease proves an attempt. */
module WorkerFields {
  import opened Identifiers
  import opened Json
  import opened WorkerLinks
  import L = LeaseChain

  // ---------------------------------------------------------------- names and owners

  /** Two markers have one owner exactly when their seven fields are alike. */
  lemma OwnerIs(m: Marker, n: Marker)
    ensures m.Owner() == n.Owner() <==>
              && Alike(m.fields.parentSessionId, n.fields.parentSessionId)
              && Alike(m.fields.parentSourceUserSeq, n.fields.parentSourceUserSeq)
              && Alike(m.fields.parentAcceptedTaskId, n.fields.parentAcceptedTaskId)
              && Alike(m.fields.parentLogicalCallId, n.fields.parentLogicalCallId)
              && Alike(m.fields.packetKey, n.fields.packetKey) && Alike(m.fields.packetDigest, n.fields.packetDigest)
              && Alike(m.fields.item, n.fields.item)
  {
  }

  /** A marker of the parent's session that names the child, and is the parent's by
      its payload or its source, or because the child points back. */
  ghost predicate MarkedBy(db: Db, parent: Source, m: Marker, k: Source) {
    && parent.sessionId in db.markers && m in db.markers[parent.sessionId]
    && m.childSessionId == Some(k.sessionId) && m.childSourceUserSeq == Some(k.seqNo)
    && (m.fields.parentSourceUserSeq == Num(parent.seqNo as real) || m.sourceUserSeq == Num(parent.seqNo as real)
        || PointsAt(db, parent, k))
  }

  /** The delegated input of the child answers the parent's input. */
  ghost predicate PointsAt(db: Db, parent: Source, k: Source) {
    && parent in db.inputs && k in db.inputs && db.inputs[k].parentEventId == Some(db.inputs[parent].id)
    && db.inputs[k].binding != None
  }

  /** A parent names exactly the children that point at it, or that a marker names. */
  lemma NamesAre(db: Db, parent: Source, k: Source)
    ensures k in db.Names(parent) <==> PointsAt(db, parent, k) || exists m :: MarkedBy(db, parent, m, k)
  {
    forall m ensures m in db.Candidates(parent) && m.Child() == Some(k) <==> MarkedBy(db, parent, m, k) {
    }
    hide Db.Candidates, MarkedBy;
    if k in db.Names(parent) && !PointsAt(db, parent, k) {
      var m :| m in db.Candidates(parent) && m.Child().Some? && m.Child().value == k;
      assert m.Child() == Some(k);
    }
  }

  // ---------------------------------------------------------------- trust and dispatch

  /** An attempt is vouched for exactly when it runs in the parent's session, for a
      public root that answers for it, or for the parent and is one of its own. */
  lemma VouchedIs(db: Db, c: Context, parent: Source, own: set<string>, id: string)
    ensures Vouched(db, c, parent, own, id) <==>
              id in db.attemptOwners && db.attemptOwners[id].sessionId == parent.sessionId
              && var n := db.attemptOwners[id].sourceUserSeq;
                 if parent.sessionId == c.rootSessionId && exists r :: r in c.roots && r == n
                 then c.rootAttempts == None || (n in c.rootAttempts.value.Keys && id in c.rootAttempts.value[n])
                 else n == parent.seqNo && id in own
  {
  }

  /** The parent's source leads back at once, and a public root that is a control
      leads to the source it executes; no other source leads anywhere. */
  lemma ControlIs(db: Db, c: Context, parent: Source, own: set<string>, call: L.Parent, n: nat)
    requires call.sessionId == parent.sessionId && call.seqNo == parent.seqNo
    ensures var store := StoreVia(db, c, parent, own);
            L.LeadsBack(store, call, Some(n)) <==>
              || n == parent.seqNo
              || (parent.sessionId == c.rootSessionId && n in c.roots
                  && exists m ::
                        db.approvals(parent.sessionId)(n) == L.Read(Some(m)) && L.LeadsBack(store, call, Some(m)))
  {
    L.ControlDecides(StoreVia(db, c, parent, own), call, n);
    hide L.LeadsBack, L.MeetsUnreadable;
  }

  /** A lease of the parent's session that names the call proves the child exactly
      when its attempt is vouched for and its source leads back; a lease of another
      call hands the question to its parent lease, scope first. */
  lemma LeaseIs(db: Db, c: Context, parent: Source, own: set<string>, call: L.Parent, k: L.LeaseKey)
    requires call.sessionId == parent.sessionId && call.seqNo == parent.seqNo
    requires parent.sessionId in db.leases && k in db.leases[parent.sessionId]
    ensures var store, row := StoreVia(db, c, parent, own), db.leases[parent.sessionId][k];
            && (L.NamesCall(row, call) ==>
                  (L.ChildProves(store, call, Some(k)) <==>
                     exists id, n: nat ::
                       row.runAttemptId == Some(id) && Vouched(db, c, parent, own, id) && 0 < n <= MAX_SAFE_INTEGER
                       && db.attemptOwners[id].sourceUserSeq == n && L.LeadsBack(store, call, Some(n))))
            && (!L.NamesCall(row, call) ==>
                  forall a, b | row.parentScope == Some(a) && row.parentLease == Some(b) && a != "" && b != "" ::
                    L.ChildProves(store, call, Some(k)) <==> L.ChildProves(store, call, Some((a, b))))
  {
    var store, row := StoreVia(db, c, parent, own), db.leases[parent.sessionId][k];
    assert k in store.leases && store.leases[k] == row;
    if L.NamesCall(row, call) {
      L.CallRowDecides(store, call, k);
    } else {
      L.ParentLeaseDecides(store, call, k);
    }
    hide L.ChildProves, L.ChildBreaks, L.LeadsBack, L.NamesCall;
  }

  /** An attempt that one lease dispatched is owned exactly when that lease proves
      the call that the marker names. */
  lemma SoleLeaseIs(db: Db, c: Context, parent: Source, own: set<string>, m: Marker, child: Source, id: string,
      k: L.LeaseKey, name: string, call: Call)
    requires (child.sessionId, id) in db.leasePointers && db.leasePointers[(child.sessionId, id)] == [Some(k)]
    requires m.fields.parentLogicalCallId == Str(name) && ExactIdentity(name)
    requires (parent, name) in db.calls && db.calls[(parent, name)] == call
    requires call.toolName == "run_worker" && Digest(call.argumentDigest) && call.state in {"open", "settled"}
    ensures id in Owned(db, c, own, parent, m, child) <==>
              && child in db.attempts && id in db.attempts[child]
              && L.ChildProves(StoreVia(db, c, parent, own),
                               L.Parent(parent.sessionId, parent.seqNo, name, call.argumentDigest), Some(k))
  {
    hide L.ChildProves, L.ChildBreaks, StoreVia, Digest, ExactIdentity;
    var pointers := db.PointersOf(child.sessionId, id);
    assert pointers[0] == Some(k) && |pointers| == 1;
  }

  // ---------------------------------------------------------------- one link

  /** The fields name the parent: its session, its sequence and its accepted task. */
  ghost predicate NamesParent(f: Fields, parent: Source) {
    f.parentSessionId == Str(parent.sessionId) && f.parentSourceUserSeq == Num(parent.seqNo as real)
    && f.parentAcceptedTaskId == Str("task:" + parent.sessionId + "#" + Decimal(parent.seqNo))
  }

  /** The child's input answers the parent's with the marker's fields, and holds a
      composed packet with the marker's item and digest; so does its session. */
  ghost predicate Reciprocates(db: Db, parent: Source, f: Fields, child: Source) {
    exists packetKey, item, digest, input, id ::
      && f.packetKey == Str(packetKey) && ExactIdentity(packetKey) && f.item == Str(item) && ExactIdentity(item)
      && f.packetDigest == Str(digest) && Digest(digest)
      && parent in db.inputs && db.inputs[parent].id == id
      && child in db.inputs
      && db.inputs[child] == Input(input, Some(id), Some(Binding(true, Some(Packet(Str(item), digest)), f)))
      && child.sessionId in db.metadata && db.metadata[child.sessionId] == Metadata(true, f)
  }

  /** The worker call that the marker names is recorded, and open or settled. */
  ghost predicate CallRecorded(db: Db, parent: Source, f: Fields) {
    exists name, digest, state ::
      && f.parentLogicalCallId == Str(name) && ExactIdentity(name) && (parent, name) in db.calls && Digest(digest)
      && db.calls[(parent, name)] == Call("run_worker", digest, state) && (state == "open" || state == "settled")
  }

  lemma ReciprocalIs(db: Db, parent: Source, m: Marker, child: Source)
    ensures Reciprocal(db, parent, m, child) <==>
              m.system && NamesParent(m.fields, parent) && Reciprocates(db, parent, m.fields, child)
              && (m.sourceUserSeq == Absent || m.sourceUserSeq == Num(parent.seqNo as real))
  {
    hide ExactIdentity, Digest, Decimal;
    if Reciprocal(db, parent, m, child) {
      var input := db.inputs[child];
      var packet := input.binding.value.packet.value;
      assert m.fields.packetKey == Str(m.fields.packetKey.s) && m.fields.item == Str(m.fields.item.s)
          && m.fields.packetDigest == Str(m.fields.packetDigest.s);
      assert db.inputs[child] == Input(input.id, Some(db.inputs[parent].id),
                                       Some(Binding(true, Some(Packet(Str(m.fields.item.s), m.fields.packetDigest.s)),
                                                    m.fields)));
    }
  }

  lemma CallIs(db: Db, parent: Source, m: Marker)
    ensures ParentCall(db, parent, m) <==> CallRecorded(db, parent, m.fields)
  {
    hide ExactIdentity, Digest;
    if ParentCall(db, parent, m) {
      var name := m.fields.parentLogicalCallId.s;
      var call := db.calls[(parent, name)];
      assert m.fields.parentLogicalCallId == Str(name);
      assert call == Call("run_worker", call.argumentDigest, call.state);
    }
  }

  /** A link is proved if and only if the tables say so: marker and child name each
      other, the call is recorded, the child comes between its parent and the
      marker, and the marker's attempt is one that the link proves. */
  lemma LinkIs(db: Db, c: Context, own: set<string>, parent: Source, m: Marker, child: Source)
    ensures ValidLink(db, c, own, parent, m, child) <==>
              && m.system && NamesParent(m.fields, parent) && Reciprocates(db, parent, m.fields, child)
              && (m.sourceUserSeq == Absent || m.sourceUserSeq == Num(parent.seqNo as real))
              && CallRecorded(db, parent, m.fields) && child in db.present
              && parent.seqNo < child.seqNo && child.seqNo < m.seqNo
              && exists id :: m.childAttemptId == Some(id) && id in Owned(db, c, own, parent, m, child)
  {
    ReciprocalIs(db, parent, m, child);
    CallIs(db, parent, m);
    hide Reciprocal, Reciprocates, ParentCall, CallRecorded, Owned, NamesParent;
    if m.childAttemptId.Some? {
      assert m.childAttemptId == Some(m.childAttemptId.value);
    }
  }
}
