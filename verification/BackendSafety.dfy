/** Every event of the backend keeps the invariant. */
module BackendSafety {
  import opened Common
  import opened Timestamp
  import opened Wire
  import opened Backend
  import opened BackendInvariant
  import Allowlist

  lemma ApartSymmetric(x: Txn, y: Txn)
    requires Apart(x, y)
    ensures Apart(y, x)
  {
  }

  lemma NoncesApartSymmetric(x: Db, y: Db)
    requires NoncesApart(x, y)
    ensures NoncesApart(y, x)
  {
  }

  /** A transaction may change its own phase and rows as long as it stays apart from the others. */
  lemma UpdateTxn(s: State, t: nat, x: Txn)
    requires Inv(s) && TxnOk(s.db, x)
    requires NoncesApart(x.work, s.db) && NoncesApart(x.work, x.work)
    requires forall u :: u in s.txns && u != t ==> Apart(x, s.txns[u])
    requires forall u :: u in s.txns && u != t ==> NoncesApart(x.work, s.txns[u].work)
    ensures Inv(WithTxn(s, t, x))
  {
    hide CellsOk;
    hide AuditBalanced;
    hide TxnOk;
    var s' := WithTxn(s, t, x);
    forall u, v | u in s'.txns && v in s'.txns && u != v ensures Apart(s'.txns[u], s'.txns[v]) {
      if v == t {
        ApartSymmetric(x, s.txns[u]);
      }
    }
    forall u, v | u in s'.txns && v in s'.txns ensures NoncesApart(s'.txns[u].work, s'.txns[v].work) {
      if v == t && u != t {
        NoncesApartSymmetric(x.work, s.txns[u].work);
      }
    }
  }

  /** Away from its own request a transaction holds nothing, whatever its phase. */
  lemma TargetFits(db: Db, x: Txn, x': Txn)
    requires TxnOk(db, x) && !x.handler.Sweep? && x'.handler == x.handler
    requires forall id: Uuid :: id != TargetOf(x.handler) ==> CellOf(x'.work, id) == CellOf(x.work, id)
    requires var id := TargetOf(x.handler);
             Fits(id, x.handler, x'.phase, x'.hit.Some?, CellOf(db, id), CellOf(x'.work, id))
    requires AuditStaged(x')
    ensures TxnOk(db, x')
  {
    forall id: Uuid ensures Fits(id, x'.handler, x'.phase, x'.hit.Some?, CellOf(db, id), CellOf(x'.work, id)) {
      assert Fits(id, x.handler, x.phase, x.hit.Some?, CellOf(db, id), CellOf(x.work, id));
    }
  }

  /** A change of phase or of audit rows alone. */
  lemma KeepRows(s: State, t: nat, x': Txn)
    requires Inv(s) && t in s.txns && !s.txns[t].handler.Sweep?
    requires x'.handler == s.txns[t].handler
    requires x'.work.requests == s.txns[t].work.requests && x'.work.approvals == s.txns[t].work.approvals
    requires var id := TargetOf(x'.handler);
             Fits(id, x'.handler, x'.phase, x'.hit.Some?, CellOf(s.db, id), CellOf(x'.work, id))
    requires AuditStaged(x')
    ensures Inv(WithTxn(s, t, x'))
  {
    var x := s.txns[t];
    forall id: Uuid ensures CellOf(x'.work, id) == CellOf(x.work, id) {
    }
    TargetFits(s.db, x, x');
    forall u | u in s.txns && u != t ensures Apart(x', s.txns[u]) {
      assert Apart(x, s.txns[u]);
    }
    UpdateTxn(s, t, x');
  }

  /** A row that is absent or pending, and that no other transaction has written, is held by nobody else. */
  lemma NobodyElseHolds(s: State, t: nat, id: Uuid, u: nat)
    requires Inv(s) && u in s.txns && u != t
    requires id in s.db.requests ==> s.db.requests[id].status.Pending?
    requires !RequestLocked(s, t, id)
    ensures CellOf(s.txns[u].work, id) == NOTHING
  {
    hide Authorizes;
    var y := s.txns[u];
    assert Fits(id, y.handler, y.phase, y.hit.Some?, CellOf(s.db, id), CellOf(y.work, id));
    assert CellOk(id, CellOf(s.db, id));
    assert !HasRow(s.txns[u], id);
  }

  /** Writing the request row of a cell nobody else holds. */
  lemma WriteRow(s: State, t: nat, x': Txn, id: Uuid)
    requires Inv(s) && t in s.txns && x'.handler == s.txns[t].handler
    requires id in x'.work.requests
    requires x'.work.requests == s.txns[t].work.requests[id := x'.work.requests[id]]
    requires x'.work.approvals == s.txns[t].work.approvals
    requires id in s.db.requests ==> s.db.requests[id].status.Pending?
    requires !RequestLocked(s, t, id)
    requires TxnOk(s.db, x')
    ensures Inv(WithTxn(s, t, x'))
  {
    hide Authorizes;
    var x := s.txns[t];
    forall u | u in s.txns && u != t ensures Apart(x', s.txns[u]) {
      NobodyElseHolds(s, t, id, u);
      assert Apart(x, s.txns[u]);
      forall i: Uuid ensures CellOf(x'.work, i) == NOTHING || CellOf(s.txns[u].work, i) == NOTHING {
        assert i != id ==> CellOf(x'.work, i) == CellOf(x.work, i);
      }
    }
    UpdateTxn(s, t, x');
  }

  // ---------- statements ----------

  lemma LoseKeepsInv(s: State, t: nat)
    requires Inv(s) && t in s.txns && !s.txns[t].handler.Sweep?
    ensures Inv(WithTxn(s, t, s.txns[t].(phase := Lost)))
  {
    var x := s.txns[t];
    var id := TargetOf(x.handler);
    assert Fits(id, x.handler, x.phase, x.hit.Some?, CellOf(s.db, id), CellOf(x.work, id));
    KeepRows(s, t, x.(phase := Lost));
  }

  lemma InsertRequestKeepsInv(s: State, t: nat, now: Micros, ttl: nat)
    requires Inv(s) && t in s.txns && StepInsertRequest(s, t, now, ttl).Some?
    ensures Inv(StepInsertRequest(s, t, now, ttl).value)
  {
    hide Authorizes;
    var x := s.txns[t];
    var b := x.handler.body;
    var expiresAt := InRange(now + ttl * SECOND);
    if expiresAt.None? || CreateRequest(s, t, b.id, NewRow(b, expiresAt.value)).NoMatch? {
      LoseKeepsInv(s, t);
    } else {
      var x' := x.(phase := Inserted, work := CreateRequest(s, t, b.id, NewRow(b, expiresAt.value)).work);
      assert Fits(b.id, x.handler, x.phase, x.hit.Some?, CellOf(s.db, b.id), CellOf(x.work, b.id));
      assert CellOk(b.id, CellOf(s.db, b.id));
      assert CellOf(x'.work, b.id) == Cell(Some(NewRow(b, expiresAt.value)), None);
      WriteOwnRow(s, t, x', b.id);
    }
  }

  lemma ReadPendingKeepsInv(s: State, t: nat, now: Micros)
    requires Inv(s) && t in s.txns && StepReadPending(s, t, now).Some?
    ensures Inv(StepReadPending(s, t, now).value)
  {
    var x := s.txns[t];
    var id := x.handler.id;
    var x' := StepReadPending(s, t, now).value.txns[t];
    TargetHasCell(s, t);
    hide Inv;
    hide Fits;
    hide AuditStaged;
    ReadHoldsNothing(x, x', CellOf(s.db, id), CellOf(x.work, id));
    KeepRows(s, t, x');
  }

  /** At its target a transaction holds what its phase says, and it has staged the audit rows due so far. */
  lemma TargetHasCell(s: State, t: nat)
    requires Inv(s) && t in s.txns && !s.txns[t].handler.Sweep?
    ensures var x := s.txns[t]; var id := TargetOf(x.handler);
            Fits(id, x.handler, x.phase, x.hit.Some?, CellOf(s.db, id), CellOf(x.work, id)) && AuditStaged(x)
  {
    hide Fits;
    hide AuditStaged;
  }

  lemma ReadHoldsNothing(x: Txn, x': Txn, base: Cell, w: Cell)
    requires (x.handler.Approve? || x.handler.Deny?) && x.phase.Begun? && x' == x.(phase := x'.phase)
    requires x'.phase.Passed? || x'.phase.Stale? || x'.phase.Lost?
    requires Fits(x.handler.id, x.handler, x.phase, x.hit.Some?, base, w) && AuditStaged(x)
    ensures Fits(x.handler.id, x.handler, x'.phase, x.hit.Some?, base, w) && AuditStaged(x')
  {
  }

  /** A matched UPDATE of a committed pending row. */
  lemma ReviewWrites(s: State, t: nat, id: Uuid, status: Status, reviewer: Option<nat>, at: Micros, x': Txn)
    requires Inv(s) && t in s.txns && CellOf(s.txns[t].work, id) == NOTHING
    requires TransitionStatus(s, t, id, Pending, status, reviewer, at).Written?
    requires x' == s.txns[t].(phase := x'.phase, work := TransitionStatus(s, t, id, Pending, status, reviewer, at).work)
    ensures Reviews(CellOf(s.db, id), CellOf(x'.work, id), status, reviewer) && CellOf(x'.work, id).approval.None?
    ensures forall i: Uuid :: i != id ==> CellOf(x'.work, i) == CellOf(s.txns[t].work, i)
    ensures TxnOk(s.db, x') ==> Inv(WithTxn(s, t, x'))
  {
    assert id !in s.txns[t].work.requests;
    if TxnOk(s.db, x') {
      WriteRow(s, t, x', id);
    }
  }

  lemma ExpireStaleKeepsInv(s: State, t: nat)
    requires Inv(s) && t in s.txns && StepExpireStale(s, t).Some?
    ensures Inv(StepExpireStale(s, t).value)
  {
    var x := s.txns[t];
    var id := x.handler.id;
    var x' := StepExpireStale(s, t).value.txns[t];
    TargetHasCell(s, t);
    hide Inv;
    hide Fits;
    hide AuditStaged;
    hide Reviews;
    StaleHoldsNothing(x, CellOf(s.db, id), CellOf(x.work, id));
    if TransitionStatus(s, t, id, Pending, Expired, None, x.phase.at).NoMatch? {
      StaleFits(x, x', CellOf(s.db, id), CellOf(x.work, id));
      KeepRows(s, t, x');
    } else {
      ReviewWrites(s, t, id, Expired, None, x.phase.at, x');
      StaleFits(x, x', CellOf(s.db, id), CellOf(x.work, id));
      InvGivesTxnOk(s, t);
      TargetFits(s.db, x, x');
    }
  }

  lemma InvGivesTxnOk(s: State, t: nat)
    requires Inv(s) && t in s.txns
    ensures TxnOk(s.db, s.txns[t])
  {
  }

  lemma StaleHoldsNothing(x: Txn, base: Cell, w: Cell)
    requires (x.handler.Approve? || x.handler.Deny?) && x.phase.Stale?
    requires Fits(x.handler.id, x.handler, x.phase, x.hit.Some?, base, w)
    ensures w == NOTHING
  {
  }

  lemma StaleFits(x: Txn, x': Txn, base: Cell, w: Cell)
    requires (x.handler.Approve? || x.handler.Deny?) && x.phase.Stale? && x'.phase.Ready?
    requires x'.handler == x.handler && x'.hit == x.hit && x'.work.audit == x.work.audit
    requires Fits(x.handler.id, x.handler, x.phase, x.hit.Some?, base, w) && AuditStaged(x)
    requires var w' := CellOf(x'.work, x.handler.id);
             w' == NOTHING || (Reviews(base, w', Expired, None) && w'.approval.None?)
    ensures Fits(x.handler.id, x.handler, x'.phase, x.hit.Some?, base, CellOf(x'.work, x.handler.id)) && AuditStaged(x')
  {
  }

  lemma DecideKeepsInv(s: State, t: nat, now: Micros)
    requires Inv(s) && t in s.txns && StepDecide(s, t, now).Some?
    ensures Inv(StepDecide(s, t, now).value)
  {
    hide Authorizes;
    var x := s.txns[t];
    var id := x.handler.id;
    var x' := StepDecide(s, t, now).value.txns[t];
    var status := if x.handler.Approve? then Approved else Denied;
    assert Fits(id, x.handler, x.phase, x.hit.Some?, CellOf(s.db, id), CellOf(x.work, id));
    if TransitionStatus(s, t, id, Pending, status, Some(x.handler.admin), now).NoMatch? {
      LoseKeepsInv(s, t);
    } else {
      ReviewWrites(s, t, id, status, Some(x.handler.admin), now, x');
      TargetFits(s.db, x, x');
    }
  }

  lemma AutoApprovedFits(b: Submission, base: Cell, w: Cell, w': Cell, at: Micros)
    requires SubmitFits(b, Logged, false, base, w) && b.agentRoute && Eligible(w.row.value)
    requires w' == w.(row := Some(w.row.value.(status := Approved, reviewedBy := None, reviewedAt := Some(at))))
    ensures SubmitFits(b, Decided, true, base, w') && Holds(base, w')
  {
  }

  lemma SkipAutoKeepsInv(s: State, t: nat)
    requires Inv(s) && t in s.txns && s.txns[t].handler.Submit? && s.txns[t].phase.Logged?
    ensures Inv(WithTxn(s, t, s.txns[t].(phase := Ready)))
  {
    hide Authorizes;
    var x := s.txns[t];
    var id := x.handler.body.id;
    assert Fits(id, x.handler, x.phase, x.hit.Some?, CellOf(s.db, id), CellOf(x.work, id));
    KeepRows(s, t, x.(phase := Ready));
  }

  lemma AutoApproveKeepsInv(s: State, t: nat, now: Micros, entry: nat)
    requires Inv(s) && t in s.txns && s.txns[t].handler.Submit? && s.txns[t].phase.Logged?
    requires var x, id := s.txns[t], s.txns[t].handler.body.id;
             && x.handler.body.agentRoute && id in x.work.requests && Eligible(x.work.requests[id])
             && TransitionStatus(s, t, id, Pending, Approved, None, now).Written?
    ensures var id := s.txns[t].handler.body.id;
            var work := TransitionStatus(s, t, id, Pending, Approved, None, now).work;
            Inv(WithTxn(s, t, s.txns[t].(phase := Decided, work := work, hit := Some(entry))))
  {
    hide Authorizes;
    hide ApproveFits;
    hide DenyFits;
    hide SweepFits;
    hide ConsumeFits;
    var x := s.txns[t];
    var b := x.handler.body;
    var work := TransitionStatus(s, t, b.id, Pending, Approved, None, now).work;
    var x' := x.(phase := Decided, work := work, hit := Some(entry));
    var base, w := CellOf(s.db, b.id), CellOf(x.work, b.id);
    assert Fits(b.id, x.handler, x.phase, x.hit.Some?, base, w);
    AutoApprovedFits(b, base, w, CellOf(x'.work, b.id), now);
    WriteOwnRow(s, t, x', b.id);
  }

  lemma AutoDecideKeepsInv(s: State, t: nat, now: Micros, hit: Option<nat>)
    requires Inv(s) && t in s.txns && StepAutoDecide(s, t, now, hit).Some?
    ensures Inv(StepAutoDecide(s, t, now, hit).value)
  {
    OwnRowVisible(s, t);
    hide Inv;
    hide TransitionStatus;
    hide Allowlist.IsFindMatchAnswer;
    if StepAutoDecide(s, t, now, hit).value.txns[t].phase.Ready? {
      SkipAutoKeepsInv(s, t);
    } else {
      AutoApproveKeepsInv(s, t, now, hit.value);
    }
  }

  lemma OwnRowVisible(s: State, t: nat)
    requires Inv(s) && t in s.txns && s.txns[t].handler.Submit? && s.txns[t].phase.Logged?
    ensures s.txns[t].handler.body.id in s.txns[t].work.requests
  {
    var x := s.txns[t];
    var id := x.handler.body.id;
    assert Fits(id, x.handler, x.phase, x.hit.Some?, CellOf(s.db, id), CellOf(x.work, id));
  }

  lemma WriteOwnRow(s: State, t: nat, x': Txn, id: Uuid)
    requires Inv(s) && t in s.txns && x'.handler == s.txns[t].handler
    requires !x'.handler.Sweep? && id == TargetOf(x'.handler) && id in x'.work.requests
    requires x'.work.requests == s.txns[t].work.requests[id := x'.work.requests[id]]
    requires x'.work.approvals == s.txns[t].work.approvals
    requires id in s.db.requests ==> s.db.requests[id].status.Pending?
    requires !RequestLocked(s, t, id)
    requires Fits(id, x'.handler, x'.phase, x'.hit.Some?, CellOf(s.db, id), CellOf(x'.work, id))
    requires AuditStaged(x')
    ensures Inv(WithTxn(s, t, x'))
  {
    TargetFits(s.db, s.txns[t], x');
    WriteRow(s, t, x', id);
  }

  lemma DecidedCell(id: Uuid, h: Handler, hit: bool, base: Cell, w: Cell)
    requires !h.Sweep? && id == TargetOf(h) && Fits(id, h, Decided, hit, base, w)
    ensures w.row.Some? && w.approval.None?
  {
    hide Authorizes;
  }

  lemma SignedFits(id: Uuid, h: Handler, hit: bool, base: Cell, w: Cell, a: Approval)
    requires (h.Submit? || h.Approve?) && id == TargetOf(h) && Fits(id, h, Decided, hit, base, w)
    requires IsFresh(id, w.row.value, a)
    ensures Fits(id, h, Signed(a), hit, base, w)
  {
    hide Authorizes;
  }

  lemma SignKeepsInv(s: State, t: nat, now: Micros, ttl: nat, nonce: string)
    requires Inv(s) && t in s.txns && StepSign(s, t, now, ttl, nonce).Some?
    ensures Inv(StepSign(s, t, now, ttl, nonce).value)
  {
    hide SubmitFits;
    hide ApproveFits;
    hide SignedPayload;
    var x := s.txns[t];
    var id := TargetOf(x.handler);
    var x' := StepSign(s, t, now, ttl, nonce).value.txns[t];
    var base, w := CellOf(s.db, id), CellOf(x.work, id);
    assert Fits(id, x.handler, x.phase, x.hit.Some?, base, w);
    if x'.phase.Lost? {
      LoseKeepsInv(s, t);
    } else {
      DecidedCell(id, x.handler, x.hit.Some?, base, w);
      SignedFits(id, x.handler, x.hit.Some?, base, w, x'.phase.approval);
      KeepRows(s, t, x');
    }
  }

  lemma NewNonceApart(w: Db, w': Db, y: Db, id: Uuid)
    requires NoncesApart(w, y) && id in w'.approvals
    requires w'.approvals == w.approvals[id := w'.approvals[id]]
    requires forall j: Uuid :: j in y.approvals && y.approvals[j].nonce == w'.approvals[id].nonce ==> j == id
    ensures NoncesApart(w', y)
  {
  }

  /** Writing the approval of a cell nobody else holds, under a nonce nobody else has. */
  lemma WriteApproval(s: State, t: nat, x': Txn, id: Uuid)
    requires Inv(s) && t in s.txns && x'.handler == s.txns[t].handler
    requires !x'.handler.Sweep? && id == TargetOf(x'.handler)
    requires x'.work.requests == s.txns[t].work.requests && x'.work.audit == s.txns[t].work.audit
    requires id in x'.work.approvals && x'.work.approvals == s.txns[t].work.approvals[id := x'.work.approvals[id]]
    requires Fits(id, x'.handler, x'.phase, x'.hit.Some?, CellOf(s.db, id), CellOf(x'.work, id))
    requires AuditStaged(x')
    requires forall u :: u in s.txns && u != t ==> CellOf(s.txns[u].work, id) == NOTHING
    requires forall j: Uuid :: j in s.db.approvals && s.db.approvals[j].nonce == x'.work.approvals[id].nonce ==> j == id
    requires forall u, j: Uuid ::
               u in s.txns && j in s.txns[u].work.approvals
               && s.txns[u].work.approvals[j].nonce == x'.work.approvals[id].nonce
               ==> j == id
    ensures Inv(WithTxn(s, t, x'))
  {
    hide Authorizes;
    var x := s.txns[t];
    TargetFits(s.db, x, x');
    NewNonceApart(x.work, x'.work, s.db, id);
    NewNonceApart(x.work, x'.work, x.work, id);
    NoncesApartSymmetric(x'.work, x.work);
    NewNonceApart(x.work, x'.work, x'.work, id);
    forall u | u in s.txns && u != t
      ensures Apart(x', s.txns[u]) && NoncesApart(x'.work, s.txns[u].work)
    {
      assert Apart(x, s.txns[u]);
      NewNonceApart(x.work, x'.work, s.txns[u].work, id);
    }
    UpdateTxn(s, t, x');
  }

  lemma InsertApprovalKeepsInv(s: State, t: nat)
    requires Inv(s) && t in s.txns && StepInsertApproval(s, t).Some?
    ensures Inv(StepInsertApproval(s, t).value)
  {
    hide Inv;
    var x := s.txns[t];
    var id := TargetOf(x.handler);
    if CreateApproval(s, t, id, x.phase.approval).NoMatch? {
      LoseKeepsInv(s, t);
    } else {
      InsertedApprovalKeepsInv(s, t, x.phase.approval);
    }
  }

  lemma InsertedApprovalKeepsInv(s: State, t: nat, a: Approval)
    requires Inv(s) && t in s.txns && !s.txns[t].handler.Sweep? && s.txns[t].phase == Signed(a)
    requires CreateApproval(s, t, TargetOf(s.txns[t].handler), a).Written?
    ensures var work := CreateApproval(s, t, TargetOf(s.txns[t].handler), a).work;
            Inv(WithTxn(s, t, s.txns[t].(phase := Issued, work := work)))
  {
    var x := s.txns[t];
    var id := TargetOf(x.handler);
    var x' := x.(phase := Issued, work := CreateApproval(s, t, id, a).work);
    TargetHasCell(s, t);
    NonceIsFree(s, t, id, a);
    hide Inv;
    hide Fits;
    hide AuditStaged;
    hide HasNonce;
    hide ApprovalLocked;
    hide NonceLocked;
    IssuedFits(x, x', CellOf(s.db, id), CellOf(x.work, id));
    forall u | u in s.txns && u != t ensures CellOf(s.txns[u].work, id) == NOTHING {
      SignerHoldsAlone(s, t, id, u);
    }
    assert CellOf(x'.work, id) == CellOf(x.work, id).(approval := Some(a));
    WriteApproval(s, t, x', id);
  }

  /** No approval, committed or in flight, has the nonce of one that goes through. */
  lemma NonceIsFree(s: State, t: nat, id: Uuid, a: Approval)
    requires t in s.txns && CreateApproval(s, t, id, a).Written?
    ensures forall j: Uuid :: j in s.db.approvals ==> s.db.approvals[j].nonce != a.nonce
    ensures forall u, j: Uuid ::
              u in s.txns && j in s.txns[u].work.approvals ==> s.txns[u].work.approvals[j].nonce != a.nonce
  {
    forall u, j: Uuid | u in s.txns && j in s.txns[u].work.approvals
      ensures s.txns[u].work.approvals[j].nonce != a.nonce
    {
      assert !HasNonce(s.txns[u].work, a.nonce);
    }
    assert !HasNonce(s.db, a.nonce);
  }

  lemma IssuedFits(x: Txn, x': Txn, base: Cell, w: Cell)
    requires !x.handler.Sweep? && x.phase.Signed? && AuditStaged(x)
    requires x'.handler == x.handler && x'.phase.Issued? && x'.hit == x.hit && x'.work.audit == x.work.audit
    requires OwnRow(x', TargetOf(x.handler)) == OwnRow(x, TargetOf(x.handler))
    requires Fits(TargetOf(x.handler), x.handler, x.phase, x.hit.Some?, base, w)
    ensures Fits(TargetOf(x.handler), x.handler, x'.phase, x.hit.Some?, base, w.(approval := Some(x.phase.approval)))
    ensures AuditStaged(x')
  {
    hide Authorizes;
  }

  /** A transaction that has signed holds the request row, so no other holds anything of that request. */
  lemma SignerHoldsAlone(s: State, t: nat, id: Uuid, u: nat)
    requires Inv(s) && t in s.txns && !s.txns[t].handler.Sweep? && s.txns[t].phase.Signed?
    requires id == TargetOf(s.txns[t].handler) && u in s.txns && u != t
    ensures CellOf(s.txns[u].work, id) == NOTHING
  {
    TargetHasCell(s, t);
    assert Apart(s.txns[t], s.txns[u]);
    hide Inv;
    hide Authorizes;
  }

  lemma NobodyElseClaims(s: State, t: nat, id: Uuid, u: nat)
    requires Inv(s) && u in s.txns && u != t && id in s.db.approvals && !ApprovalLocked(s, t, id)
    ensures CellOf(s.txns[u].work, id) == NOTHING
  {
    hide Authorizes;
    var y := s.txns[u];
    assert Fits(id, y.handler, y.phase, y.hit.Some?, CellOf(s.db, id), CellOf(y.work, id));
    assert CellOk(id, CellOf(s.db, id));
    assert !HasApproval(s.txns[u], id);
  }

  lemma ClaimConsumedKeepsInv(s: State, t: nat, now: Micros)
    requires Inv(s) && t in s.txns && StepClaimConsumed(s, t, now).Some?
    ensures Inv(StepClaimConsumed(s, t, now).value)
  {
    hide Inv;
    var x' := StepClaimConsumed(s, t, now).value.txns[t];
    if x'.phase.Lost? {
      LoseKeepsInv(s, t);
    } else {
      ClaimedKeepsInv(s, t, now);
    }
  }

  lemma ClaimedKeepsInv(s: State, t: nat, now: Micros)
    requires Inv(s) && t in s.txns && s.txns[t].handler.Consume? && s.txns[t].phase.Begun?
    requires MarkConsumed(s, t, s.txns[t].handler.id, now).Written?
    requires s.db.approvals[s.txns[t].handler.id].device == s.txns[t].handler.device
    ensures var work := MarkConsumed(s, t, s.txns[t].handler.id, now).work;
            Inv(WithTxn(s, t, s.txns[t].(phase := Claimed, work := work)))
  {
    var x := s.txns[t];
    var id := x.handler.id;
    var x' := x.(phase := Claimed, work := MarkConsumed(s, t, id, now).work);
    TargetHasCell(s, t);
    NoncesAreOwn(s, id);
    hide Inv;
    hide Fits;
    hide AuditStaged;
    ClaimFits(x, x', CellOf(s.db, id), CellOf(x.work, id));
    forall u | u in s.txns && u != t ensures CellOf(s.txns[u].work, id) == NOTHING {
      NobodyElseClaims(s, t, id, u);
    }
    WriteApproval(s, t, x', id);
  }

  /** A committed approval's nonce is no other approval's, committed or in flight. */
  lemma NoncesAreOwn(s: State, id: Uuid)
    requires Inv(s) && id in s.db.approvals
    ensures forall j: Uuid :: j in s.db.approvals && s.db.approvals[j].nonce == s.db.approvals[id].nonce ==> j == id
    ensures forall u, j: Uuid ::
              u in s.txns && j in s.txns[u].work.approvals
              && s.txns[u].work.approvals[j].nonce == s.db.approvals[id].nonce
              ==> j == id
  {
    hide CellsOk;
    hide TxnOk;
    hide AuditBalanced;
    hide Apart;
  }

  lemma ClaimFits(x: Txn, x': Txn, base: Cell, w: Cell)
    requires x.handler.Consume? && x.phase.Begun? && x'.phase.Claimed? && AuditStaged(x)
    requires x'.handler == x.handler && x'.hit == x.hit && x'.work.audit == x.work.audit
    requires Fits(x.handler.id, x.handler, x.phase, x.hit.Some?, base, w)
    requires base.approval.Some? && base.approval.value.consumedAt.None?
    requires var w' := CellOf(x'.work, x.handler.id);
             && w'.row == w.row && w'.approval.Some? && w'.approval.value.consumedAt.Some?
             && w'.approval.value == base.approval.value.(consumedAt := w'.approval.value.consumedAt)
             && base.approval.value.device == x.handler.device
    ensures Fits(x.handler.id, x.handler, x'.phase, x.hit.Some?, base, CellOf(x'.work, x.handler.id)) && AuditStaged(x')
  {
  }

  lemma AuditedSubmission(b: Submission, p: Phase, hit: bool, base: Cell, w: Cell)
    requires AuditDue(Submit(b), p, w.row, w.approval).Some? && SubmitFits(b, p, hit, base, w)
    ensures var (row, next) := AuditDue(Submit(b), p, w.row, w.approval).value;
            SubmitFits(b, next, hit, base, w) && Staged(Submit(b), next, w) == Staged(Submit(b), p, w) + multiset{row}
  {
    hide Authorizes;
    if p.Inserted? {
      assert Staged(Submit(b), p, w) == multiset{};
    }
  }

  lemma AuditedFits(id: Uuid, h: Handler, p: Phase, hit: bool, base: Cell, w: Cell)
    requires !h.Sweep? && id == TargetOf(h) && AuditDue(h, p, w.row, w.approval).Some? && Fits(id, h, p, hit, base, w)
    ensures var (row, next) := AuditDue(h, p, w.row, w.approval).value;
            Fits(id, h, next, hit, base, w) && Staged(h, next, w) == Staged(h, p, w) + multiset{row}
  {
    hide Authorizes;
    if h.Submit? {
      AuditedSubmission(h.body, p, hit, base, w);
    } else {
      var (row, next) := AuditDue(h, p, w.row, w.approval).value;
      assert Staged(h, p, w) == multiset{};
      assert Staged(h, next, w) == multiset{row};
    }
  }

  lemma WriteAuditKeepsInv(s: State, t: nat)
    requires Inv(s) && t in s.txns && StepWriteAudit(s, t).Some?
    ensures Inv(StepWriteAudit(s, t).value)
  {
    var x := s.txns[t];
    var id := TargetOf(x.handler);
    var x' := StepWriteAudit(s, t).value.txns[t];
    var base, w := CellOf(s.db, id), CellOf(x.work, id);
    TargetHasCell(s, t);
    hide Inv;
    hide Fits;
    hide Staged;
    hide AuditDue;
    assert OwnRow(x, id) == w.row && OwnApproval(x, id) == w.approval;
    assert AuditDue(x.handler, x.phase, w.row, w.approval).Some?;
    AuditedFits(id, x.handler, x.phase, x.hit.Some?, base, w);
    LostIsNotAudited(x.handler, x.phase, w);
    assert CellOf(x'.work, id) == w;
    KeepRows(s, t, x');
  }

  lemma LostIsNotAudited(h: Handler, p: Phase, w: Cell)
    ensures AuditDue(h, p, w.row, w.approval).Some? ==> !p.Lost?
  {
  }

  lemma SweepRowKeepsInv(s: State, t: nat, id: Uuid)
    requires Inv(s) && t in s.txns && StepSweepRow(s, t, id).Some?
    ensures Inv(StepSweepRow(s, t, id).value)
  {
    hide Authorizes;
    var x := s.txns[t];
    var x' := StepSweepRow(s, t, id).value.txns[t];
    assert Fits(id, x.handler, x.phase, x.hit.Some?, CellOf(s.db, id), CellOf(x.work, id));
    ReviewWrites(s, t, id, Expired, None, x.handler.now, x');
    forall i: Uuid ensures Fits(i, x'.handler, x'.phase, x'.hit.Some?, CellOf(s.db, i), CellOf(x'.work, i)) {
      assert Fits(i, x.handler, x.phase, x.hit.Some?, CellOf(s.db, i), CellOf(x.work, i));
    }
  }

  // ---------- beginning, ending, polling ----------

  lemma BeginKeepsInv(s: State, t: nat, h: Handler)
    requires Inv(s) && Next(s, Begin(t, h)).Some?
    ensures Inv(Next(s, Begin(t, h)).value)
  {
    var x := Txn(h, if h.Sweep? then Ready else Begun, EMPTY, None);
    forall id: Uuid ensures Fits(id, h, x.phase, x.hit.Some?, CellOf(s.db, id), CellOf(x.work, id)) {
      assert CellOf(EMPTY, id) == NOTHING;
    }
    UpdateTxn(s, t, x);
  }

  lemma RollbackKeepsInv(s: State, t: nat)
    requires Inv(s) && t in s.txns
    ensures Inv(s.(txns := s.txns - {t}))
  {
    hide CellsOk;
    hide AuditBalanced;
    hide TxnOk;
  }

  lemma CommitKeepsCells(db: Db, x: Txn)
    requires CellsOk(db) && TxnOk(db, x) && x.phase.Ready?
    ensures CellsOk(Merge(db, x.work))
  {
    forall id: Uuid ensures CellOk(id, CellOf(Merge(db, x.work), id)) {
      MergeCell(db, x.work, id);
      assert Fits(id, x.handler, x.phase, x.hit.Some?, CellOf(db, id), CellOf(x.work, id));
      CommittedCellOk(id, x.handler, x.hit.Some?, CellOf(db, id), CellOf(x.work, id));
    }
  }

  lemma CommitKeepsAudit(db: Db, x: Txn)
    requires CellsOk(db) && AuditBalanced(db) && TxnOk(db, x) && x.phase.Ready?
    ensures AuditBalanced(Merge(db, x.work))
  {
    hide Authorizes;
    forall a: AuditRow ensures Merge(db, x.work).audit[a] == Count(Due(CellOf(Merge(db, x.work), a.request), a)) {
      var id := a.request;
      var base, w := CellOf(db, id), CellOf(x.work, id);
      MergeCell(db, x.work, id);
      assert Fits(id, x.handler, x.phase, x.hit.Some?, base, w);
      assert CellOk(id, base);
      CommittedAuditRow(x, base, w, a);
    }
  }

  lemma CommittedAuditRow(x: Txn, base: Cell, w: Cell, a: AuditRow)
    requires x.phase.Ready? && AuditStaged(x) && w == CellOf(x.work, a.request)
    requires CellOk(a.request, base) && Fits(a.request, x.handler, Ready, x.hit.Some?, base, w)
    ensures Count(Due(base, a)) + x.work.audit[a] == Count(Due(Over(base, w), a))
  {
    hide Authorizes;
    hide Due;
    if !x.handler.Sweep? && a.request != TargetOf(x.handler) {
      StagedElsewhere(x.handler, Ready, CellOf(x.work, TargetOf(x.handler)), a);
    } else {
      match x.handler
      case Submit(b) => SubmitAudit(b, x.hit.Some?, base, w, a);
      case Approve(id, admin) => ApproveAudit(id, admin, base, w, a);
      case Deny(id, admin) => DenyAudit(id, admin, base, w, a);
      case Consume(id, device) => ConsumeAudit(id, device, base, w, a);
      case Sweep(device, _) => SweepAudit(device, base, w, a);
    }
  }

  lemma CommitKeepsOther(db: Db, x: Txn, y: Txn)
    requires TxnOk(db, y) && Apart(x, y)
    ensures TxnOk(Merge(db, x.work), y)
  {
    forall id: Uuid
      ensures Fits(id, y.handler, y.phase, y.hit.Some?, CellOf(Merge(db, x.work), id), CellOf(y.work, id))
    {
      MergeCell(db, x.work, id);
      assert Fits(id, y.handler, y.phase, y.hit.Some?, CellOf(db, id), CellOf(y.work, id));
      if CellOf(y.work, id) == NOTHING {
        FitsNothing(id, y.handler, y.phase, y.hit.Some?, CellOf(db, id), CellOf(Merge(db, x.work), id));
      } else {
        assert CellOf(x.work, id) == NOTHING;
      }
    }
  }

  lemma FitsNothing(id: Uuid, h: Handler, p: Phase, hit: bool, base: Cell, base': Cell)
    requires Fits(id, h, p, hit, base, NOTHING)
    ensures Fits(id, h, p, hit, base', NOTHING)
  {
  }

  lemma CommitKeepsNonces(s: State, t: nat, y: Db)
    requires t in s.txns && NoncesApart(y, s.db) && NoncesApart(y, s.txns[t].work)
    ensures NoncesApart(y, Merge(s.db, s.txns[t].work))
  {
  }

  /** A committed approval keeps its token: only its consumption time is ever written, and only once. */
  lemma CommitKeepsSignatures(db: Db, x: Txn, id: Uuid)
    requires CellsOk(db) && TxnOk(db, x) && x.phase.Ready? && id in db.approvals
    ensures id in Merge(db, x.work).approvals
    ensures Merge(db, x.work).approvals[id]
         == db.approvals[id].(consumedAt := Merge(db, x.work).approvals[id].consumedAt)
    ensures db.approvals[id].consumedAt.Some? ==> Merge(db, x.work).approvals[id] == db.approvals[id]
  {
    hide Authorizes;
    assert CellOk(id, CellOf(db, id));
    assert Fits(id, x.handler, x.phase, x.hit.Some?, CellOf(db, id), CellOf(x.work, id));
  }

  lemma CommitKeepsReleased(s: State, t: nat)
    requires Inv(s) && t in s.txns && s.txns[t].phase.Ready?
    ensures ReleasedOk(Merge(s.db, s.txns[t].work), s.released)
  {
    forall p | p in s.released ensures exists id: Uuid :: IsSignedFor(Merge(s.db, s.txns[t].work), id, p) {
      var id: Uuid :| IsSignedFor(s.db, id, p);
      CommitKeepsSignatures(s.db, s.txns[t], id);
      assert IsSignedFor(Merge(s.db, s.txns[t].work), id, p);
    }
  }

  lemma CommitKeepsInv(s: State, t: nat)
    requires Inv(s) && t in s.txns && s.txns[t].phase.Ready?
    ensures Inv(s.(db := Merge(s.db, s.txns[t].work), txns := s.txns - {t}))
  {
    hide CellOf;
    hide Fits;
    hide AuditStaged;
    var x := s.txns[t];
    CommitKeepsCells(s.db, x);
    CommitKeepsAudit(s.db, x);
    CommitKeepsReleased(s, t);
    CommitKeepsNonces(s, t, s.db);
    NoncesApartSymmetric(x.work, s.db);
    CommitKeepsNonces(s, t, x.work);
    MergedNonces(s.db, x.work);
    forall u | u in s.txns && u != t
      ensures TxnOk(Merge(s.db, x.work), s.txns[u]) && NoncesApart(s.txns[u].work, Merge(s.db, x.work))
    {
      CommitKeepsOther(s.db, x, s.txns[u]);
      CommitKeepsNonces(s, t, s.txns[u].work);
    }
  }

  lemma MergedNonces(db: Db, w: Db)
    requires NoncesApart(db, Merge(db, w)) && NoncesApart(w, Merge(db, w))
    ensures NoncesApart(Merge(db, w), Merge(db, w))
  {
  }

  lemma PollKeepsInv(s: State, device: Uuid, since: Micros)
    requires Inv(s)
    ensures Inv(Next(s, Poll(device, since)).value)
  {
    hide CellsOk;
    hide AuditBalanced;
    hide TxnOk;
    hide NoncesApart;
    forall p | p in PayloadsOf(Offered(s.db, device, since)) ensures exists id: Uuid :: IsSignedFor(s.db, id, p) {
      var id: Uuid :| id in s.db.requests && IsOffered(s.db, device, since, id)
                      && DecisionOf(s.db, id).token.Some? && DecisionOf(s.db, id).token.value.signature == Genuine(p);
      assert IsSignedFor(s.db, id, p);
    }
  }

  lemma ExecuteKeepsInv(s: State, t: nat, statement: Statement)
    requires Inv(s) && t in s.txns && Execute(s, t, statement).Some?
    ensures Inv(Execute(s, t, statement).value)
  {
    hide Inv;
    match statement
    case Rollback => RollbackKeepsInv(s, t);
    case Commit => CommitKeepsInv(s, t);
    case InsertRequest(now, ttl) => InsertRequestKeepsInv(s, t, now, ttl);
    case ReadPending(now) => ReadPendingKeepsInv(s, t, now);
    case ExpireStale => ExpireStaleKeepsInv(s, t);
    case Decide(now) => DecideKeepsInv(s, t, now);
    case AutoDecide(now, hit) => AutoDecideKeepsInv(s, t, now, hit);
    case Sign(now, ttl, nonce) => SignKeepsInv(s, t, now, ttl, nonce);
    case InsertApproval => InsertApprovalKeepsInv(s, t);
    case WriteAudit => WriteAuditKeepsInv(s, t);
    case SweepRow(id) => SweepRowKeepsInv(s, t, id);
    case ClaimConsumed(now) => ClaimConsumedKeepsInv(s, t, now);
  }

  lemma NextKeepsInv(s: State, e: Event)
    requires Inv(s) && Next(s, e).Some?
    ensures Inv(Next(s, e).value)
  {
    match e
    case Begin(t, h) => BeginKeepsInv(s, t, h);
    case In(t, statement) => ExecuteKeepsInv(s, t, statement);
    case Poll(device, since) => PollKeepsInv(s, device, since);
    case Administer(op) => Allowlist.ApplyKeepsValid(s.allow, op);
  }

  lemma InitialInv()
    ensures Inv(INITIAL)
  {
    forall id: Uuid ensures CellOk(id, CellOf(EMPTY, id)) {
    }
  }

  lemma {:induction false} RunKeepsInv(s: State, events: seq<Event>)
    requires Inv(s) && Run(s, events).Some?
    ensures Inv(Run(s, events).value)
    decreases |events|
  {
    hide Inv;
    hide Next;
    if events != [] {
      var mid := Run(s, events[..|events| - 1]).value;
      RunKeepsInv(s, events[..|events| - 1]);
      NextKeepsInv(mid, events[|events| - 1]);
    }
  }

  lemma ReachableInv(events: seq<Event>)
    requires Run(INITIAL, events).Some?
    ensures Inv(Run(INITIAL, events).value)
  {
    InitialInv();
    RunKeepsInv(INITIAL, events);
  }
}
