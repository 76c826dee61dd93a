/** Where committed rows come from: every fact in the tables leads back to a call that asked for it. */
module BackendHistory {
  import opened Common
  import opened Timestamp
  import opened Backend
  import opened BackendInvariant
  import opened BackendSafety
  import opened BackendTheorems
  import Allowlist

  /** The calls that were begun in a run. */
  function Begun(events: seq<Event>): set<Handler> {
    set e | e in events && e.Begin? :: e.handler
  }

  predicate SameText(a: string, b: string) {
    Lower(a) == Lower(b)
  }

  /** The row shows what this submission said, its hash up to letter case. */
  predicate SubmittedAs(q: Request, b: Submission) {
    FromBody(q, b) && SameText(q.sha256, b.sha256)
  }

  /** This call may give request `id` the status and the reviewer it has. */
  predicate Explains(h: Handler, id: Uuid, q: Request) {
    match q.status
    case Pending => h.Submit? && h.body.id == id
    case Approved =>
      if q.reviewedBy.Some? then h == Approve(id, q.reviewedBy.value)
      else h.Submit? && h.body.id == id && h.body.agentRoute && FromBody(q, h.body) && Eligible(q)
    case Denied => q.reviewedBy.Some? && h == Deny(id, q.reviewedBy.value)
    case Expired =>
      || ((h.Approve? || h.Deny?) && h.id == id)
      || (h.Sweep? && h.device == q.device)
  }

  ghost predicate WasSubmitted(begun: set<Handler>, id: Uuid, q: Request) {
    exists b: Submission :: Submit(b) in begun && b.id == id && SubmittedAs(q, b)
  }

  ghost predicate WasDecided(begun: set<Handler>, id: Uuid, q: Request) {
    exists h :: h in begun && Explains(h, id, q)
  }

  /** An expired row was past its expiry on the clock that is its review time. */
  predicate ExpiredInTime(q: Request) {
    q.status.Expired? ==> q.reviewedAt.Some? && q.expiresAt <= q.reviewedAt.value
  }

  /** What the clock of a review said about the committed row it read. */
  predicate ClockFits(db: Db, x: Txn) {
    match x.phase
    case Passed(at) =>
      !x.handler.Sweep? && TargetOf(x.handler) in db.requests && at < db.requests[TargetOf(x.handler)].expiresAt
    case Stale(at) =>
      !x.handler.Sweep? && TargetOf(x.handler) in db.requests && db.requests[TargetOf(x.handler)].expiresAt <= at
    case _ => true
  }

  /** The rows in hand are those the call is entitled to write. */
  predicate RowsFit(x: Txn) {
    && (forall id :: id in x.work.requests ==> ExpiredInTime(x.work.requests[id]))
    && (x.handler.Submit? && x.handler.body.id in x.work.requests
        ==> SameText(x.work.requests[x.handler.body.id].sha256, x.handler.body.sha256))
    && (x.handler.Consume? ==> forall id :: id in x.work.approvals ==> x.work.approvals[id].device == x.handler.device)
  }

  ghost predicate Traced(db: Db, begun: set<Handler>) {
    && (forall id :: id in db.requests ==>
          && WasSubmitted(begun, id, db.requests[id]) && WasDecided(begun, id, db.requests[id])
          && ExpiredInTime(db.requests[id]))
    && (forall id :: id in db.approvals && db.approvals[id].consumedAt.Some? ==>
          Consume(id, db.approvals[id].device) in begun)
  }

  ghost predicate History(s: State, begun: set<Handler>) {
    && Traced(s.db, begun)
    && forall t :: t in s.txns ==> s.txns[t].handler in begun && ClockFits(s.db, s.txns[t]) && RowsFit(s.txns[t])
  }

  // ---------- one statement ----------

  /** From s to s' only transaction `t` went on, within its call, and what it holds still fits. */
  predicate WentOn(s: State, t: nat, s': State) {
    && t in s.txns && t in s'.txns && s' == s.(txns := s.txns[t := s'.txns[t]])
    && s'.txns[t].handler == s.txns[t].handler
    && ClockFits(s.db, s'.txns[t]) && RowsFit(s'.txns[t])
  }

  ghost predicate Fitting(s: State, t: nat) {
    Inv(s) && t in s.txns && ClockFits(s.db, s.txns[t]) && RowsFit(s.txns[t])
  }

  /** At its target a transaction holds what its phase says. */
  lemma TargetCell(s: State, t: nat)
    requires Inv(s) && t in s.txns && !s.txns[t].handler.Sweep?
    ensures var x := s.txns[t]; var id := TargetOf(x.handler);
            Fits(id, x.handler, x.phase, x.hit.Some?, CellOf(s.db, id), CellOf(x.work, id))
  {
  }

  lemma InsertRequestWentOn(s: State, t: nat, now: Micros, ttl: nat)
    requires Fitting(s, t) && StepInsertRequest(s, t, now, ttl).Some?
    ensures WentOn(s, t, StepInsertRequest(s, t, now, ttl).value)
  {
    hide Inv;
  }

  lemma ReadPendingWentOn(s: State, t: nat, now: Micros)
    requires Fitting(s, t) && StepReadPending(s, t, now).Some?
    ensures WentOn(s, t, StepReadPending(s, t, now).value)
  {
    hide Inv;
  }

  lemma ExpireStaleWentOn(s: State, t: nat)
    requires Fitting(s, t) && StepExpireStale(s, t).Some?
    ensures WentOn(s, t, StepExpireStale(s, t).value)
  {
    TargetCell(s, t);
    hide Inv;
    hide Authorizes;
  }

  lemma DecideWentOn(s: State, t: nat, now: Micros)
    requires Fitting(s, t) && StepDecide(s, t, now).Some?
    ensures WentOn(s, t, StepDecide(s, t, now).value)
  {
    hide Inv;
  }

  lemma AutoDecideWentOn(s: State, t: nat, now: Micros, hit: Option<nat>)
    requires Fitting(s, t) && StepAutoDecide(s, t, now, hit).Some?
    ensures WentOn(s, t, StepAutoDecide(s, t, now, hit).value)
  {
    TargetCell(s, t);
    hide Inv;
    hide Authorizes;
    hide Allowlist.IsFindMatchAnswer;
  }

  lemma SignWentOn(s: State, t: nat, now: Micros, ttl: nat, nonce: string)
    requires Fitting(s, t) && StepSign(s, t, now, ttl, nonce).Some?
    ensures WentOn(s, t, StepSign(s, t, now, ttl, nonce).value)
  {
    hide Inv;
    hide SignedPayload;
  }

  lemma InsertApprovalWentOn(s: State, t: nat)
    requires Fitting(s, t) && StepInsertApproval(s, t).Some?
    ensures WentOn(s, t, StepInsertApproval(s, t).value)
  {
    if s.txns[t].handler.Consume? {
      ConsumeNeverSigns(s, t);
      assert false;
    }
    SameRequestsFit(s.txns[t], StepInsertApproval(s, t).value.txns[t]);
    hide RowsFit;
    hide Inv;
    hide HasNonce;
    hide ApprovalLocked;
    hide NonceLocked;
  }

  lemma SameRequestsFit(x: Txn, x': Txn)
    requires RowsFit(x) && x'.handler == x.handler && !x.handler.Consume? && x'.work.requests == x.work.requests
    ensures RowsFit(x')
  {
  }

  lemma ConsumeNeverSigns(s: State, t: nat)
    requires Inv(s) && t in s.txns && s.txns[t].handler.Consume?
    ensures !s.txns[t].phase.Signed?
  {
    TargetCell(s, t);
    hide Inv;
    hide Authorizes;
  }

  lemma ClaimConsumedWentOn(s: State, t: nat, now: Micros)
    requires Fitting(s, t) && StepClaimConsumed(s, t, now).Some?
    ensures WentOn(s, t, StepClaimConsumed(s, t, now).value)
  {
    hide Inv;
  }

  lemma SweepRowWentOn(s: State, t: nat, id: Uuid)
    requires Fitting(s, t) && StepSweepRow(s, t, id).Some?
    ensures WentOn(s, t, StepSweepRow(s, t, id).value)
  {
    hide Inv;
  }

  lemma WriteAuditWentOn(s: State, t: nat)
    requires Fitting(s, t) && StepWriteAudit(s, t).Some?
    ensures WentOn(s, t, StepWriteAudit(s, t).value)
  {
    hide Inv;
  }

  lemma StatementWentOn(s: State, t: nat, statement: Statement)
    requires Fitting(s, t)
    requires Execute(s, t, statement).Some? && !statement.Commit? && !statement.Rollback?
    ensures WentOn(s, t, Execute(s, t, statement).value)
  {
    hide Fitting;
    hide WentOn;
    match statement
    case InsertRequest(now, ttl) => InsertRequestWentOn(s, t, now, ttl);
    case ReadPending(now) => ReadPendingWentOn(s, t, now);
    case ExpireStale => ExpireStaleWentOn(s, t);
    case Decide(now) => DecideWentOn(s, t, now);
    case AutoDecide(now, hit) => AutoDecideWentOn(s, t, now, hit);
    case Sign(now, ttl, nonce) => SignWentOn(s, t, now, ttl, nonce);
    case InsertApproval => InsertApprovalWentOn(s, t);
    case WriteAudit => WriteAuditWentOn(s, t);
    case SweepRow(id) => SweepRowWentOn(s, t, id);
    case ClaimConsumed(now) => ClaimConsumedWentOn(s, t, now);
  }

  // ---------- commit ----------

  /** The row a finished call commits is one it explains, with the submission of the row it replaces. */
  lemma CommittedRowIsExplained(db: Db, x: Txn, id: Uuid)
    requires TxnOk(db, x) && x.phase.Ready? && id in x.work.requests
    ensures Explains(x.handler, id, x.work.requests[id])
    ensures id in db.requests ==> SameSubmission(db.requests[id], x.work.requests[id])
    ensures id !in db.requests ==>
              x.handler.Submit? && x.handler.body.id == id && FromBody(x.work.requests[id], x.handler.body)
  {
    hide Fits;
    hide Explains;
    assert Fits(id, x.handler, x.phase, x.hit.Some?, CellOf(db, id), CellOf(x.work, id));
    ReadyCellIsExplained(id, x.handler, x.hit.Some?, CellOf(db, id), CellOf(x.work, id));
  }

  lemma ReadyCellIsExplained(id: Uuid, h: Handler, hit: bool, base: Cell, w: Cell)
    requires Fits(id, h, Ready, hit, base, w) && w.row.Some?
    ensures Explains(h, id, w.row.value)
    ensures base.row.Some? ==> SameSubmission(base.row.value, w.row.value)
    ensures base.row.None? ==> h.Submit? && h.body.id == id && FromBody(w.row.value, h.body)
  {
    hide Authorizes;
  }

  lemma CommittedRowIsTraced(db: Db, x: Txn, begun: set<Handler>, id: Uuid)
    requires Traced(db, begun) && x.handler in begun && RowsFit(x)
    requires TxnOk(db, x) && x.phase.Ready? && id in x.work.requests
    ensures WasSubmitted(begun, id, x.work.requests[id]) && WasDecided(begun, id, x.work.requests[id])
  {
    CommittedRowIsExplained(db, x, id);
    hide TxnOk;
    hide Explains;
    var q := x.work.requests[id];
    if id in db.requests {
      var b: Submission :| Submit(b) in begun && b.id == id && SubmittedAs(db.requests[id], b);
      assert SubmittedAs(q, b);
    } else {
      assert SubmittedAs(q, x.handler.body);
    }
  }

  lemma ClaimIsItsDevices(db: Db, x: Txn, id: Uuid)
    requires TxnOk(db, x) && x.phase.Ready? && id in x.work.approvals && x.work.approvals[id].consumedAt.Some?
    ensures x.handler.Consume? && x.handler.id == id
  {
    hide Authorizes;
    assert Fits(id, x.handler, x.phase, x.hit.Some?, CellOf(db, id), CellOf(x.work, id));
  }

  lemma CommitKeepsTraced(db: Db, x: Txn, begun: set<Handler>)
    requires Traced(db, begun) && x.handler in begun && RowsFit(x) && TxnOk(db, x) && x.phase.Ready?
    ensures Traced(Merge(db, x.work), begun)
  {
    hide TxnOk;
    hide WasSubmitted;
    hide WasDecided;
    hide ExpiredInTime;
    var later := Merge(db, x.work);
    forall id | id in later.requests
      ensures WasSubmitted(begun, id, later.requests[id]) && WasDecided(begun, id, later.requests[id])
      ensures ExpiredInTime(later.requests[id])
    {
      if id in x.work.requests {
        CommittedRowIsTraced(db, x, begun, id);
      }
    }
    forall id | id in later.approvals && later.approvals[id].consumedAt.Some?
      ensures Consume(id, later.approvals[id].device) in begun
    {
      if id in x.work.approvals {
        ClaimIsItsDevices(db, x, id);
      }
    }
  }

  lemma CommitKeepsClock(s: State, t: nat, u: nat)
    requires Inv(s) && t in s.txns && s.txns[t].phase.Ready? && u in s.txns && ClockFits(s.db, s.txns[u])
    ensures ClockFits(Merge(s.db, s.txns[t].work), s.txns[u])
  {
    if !s.txns[u].handler.Sweep? {
      CommitExtends(s, t, TargetOf(s.txns[u].handler));
    }
    hide Inv;
    hide Merge;
  }

  // ---------- runs ----------

  lemma MoreBegun(s: State, begun: set<Handler>, more: set<Handler>)
    requires History(s, begun) && begun <= more
    ensures History(s, more)
  {
    hide Explains;
    hide SubmittedAs;
    forall id | id in s.db.requests
      ensures WasSubmitted(more, id, s.db.requests[id]) && WasDecided(more, id, s.db.requests[id])
    {
      assert WasSubmitted(begun, id, s.db.requests[id]) && WasDecided(begun, id, s.db.requests[id]);
    }
  }

  lemma InKeepsHistory(s: State, t: nat, statement: Statement, begun: set<Handler>)
    requires Inv(s) && History(s, begun) && t in s.txns && Execute(s, t, statement).Some?
    ensures History(Execute(s, t, statement).value, begun)
  {
    hide Inv;
    hide Traced;
    hide RowsFit;
    hide ClockFits;
    if statement.Commit? {
      CommitIsTraced(s, t, begun);
      forall u | u in s.txns ensures ClockFits(Merge(s.db, s.txns[t].work), s.txns[u]) {
        CommitKeepsClock(s, t, u);
      }
    } else if !statement.Rollback? {
      StatementWentOn(s, t, statement);
      hide Execute;
    }
  }

  lemma CommitIsTraced(s: State, t: nat, begun: set<Handler>)
    requires Inv(s) && History(s, begun) && t in s.txns && s.txns[t].phase.Ready?
    ensures Traced(Merge(s.db, s.txns[t].work), begun)
  {
    CommitKeepsTraced(s.db, s.txns[t], begun);
  }

  lemma NextKeepsHistory(s: State, e: Event, begun: set<Handler>)
    requires Inv(s) && History(s, begun) && Next(s, e).Some?
    requires e.Begin? ==> e.handler in begun
    ensures History(Next(s, e).value, begun)
  {
    hide Inv;
    hide Traced;
    match e
    case Begin(t, h) =>
    case In(t, statement) => InKeepsHistory(s, t, statement, begun);
    case Poll(_, _) =>
    case Administer(_) =>
  }

  lemma {:induction false} ReachableHistory(events: seq<Event>)
    requires Run(INITIAL, events).Some?
    ensures History(Run(INITIAL, events).value, Begun(events))
    decreases |events|
  {
    hide History;
    hide Next;
    if events != [] {
      var before, e := events[..|events| - 1], events[|events| - 1];
      assert events == before + [e];
      ReachableHistory(before);
      ReachableInv(before);
      MoreBegun(Run(INITIAL, before).value, Begun(before), Begun(events));
      NextKeepsHistory(Run(INITIAL, before).value, e, Begun(events));
    } else {
      InitialHistory();
    }
  }

  lemma InitialHistory()
    ensures History(INITIAL, {})
    ensures Begun([]) == {}
  {
  }

  // ---------- what follows ----------

  /**
   * Every committed request is one some device submitted, hash and all; and its status was asked for:
   * APPROVED or DENIED by a call of the very reviewer it names, or without a reviewer by a trusted
   * submission on the agent route; EXPIRED by a review or by a poll of its device.
   */
  lemma EveryRowIsTraceable(events: seq<Event>, id: Uuid)
    requires Run(INITIAL, events).Some? && id in Run(INITIAL, events).value.db.requests
    ensures WasSubmitted(Begun(events), id, Run(INITIAL, events).value.db.requests[id])
    ensures WasDecided(Begun(events), id, Run(INITIAL, events).value.db.requests[id])
  {
    ReachableHistory(events);
  }

  /** Only the device of an approval has it marked consumed. */
  lemma ConsumedByItsDevice(events: seq<Event>, id: Uuid)
    requires Run(INITIAL, events).Some? && id in Run(INITIAL, events).value.db.approvals
    requires Run(INITIAL, events).value.db.approvals[id].consumedAt.Some?
    ensures Consume(id, Run(INITIAL, events).value.db.approvals[id].device) in Begun(events)
  {
    ReachableHistory(events);
  }

  /** Nothing expires before its time: the review time of an EXPIRED request is not before its expiry. */
  lemma ExpiredOnlyAfterExpiry(events: seq<Event>, id: Uuid)
    requires Run(INITIAL, events).Some? && id in Run(INITIAL, events).value.db.requests
    requires Run(INITIAL, events).value.db.requests[id].status.Expired?
    ensures var q := Run(INITIAL, events).value.db.requests[id]; q.reviewedAt.Some? && q.expiresAt <= q.reviewedAt.value
  {
    ReachableHistory(events);
  }

  /** Nothing is decided after its time: a reviewer's UPDATE follows a clock reading before the expiry. */
  lemma ReviewsAreInTime(events: seq<Event>, t: nat, now: Micros)
    requires Run(INITIAL, events).Some? && t in Run(INITIAL, events).value.txns
    requires StepDecide(Run(INITIAL, events).value, t, now).Some?
    ensures var x := Run(INITIAL, events).value.txns[t];
            var x' := StepDecide(Run(INITIAL, events).value, t, now).value.txns[t];
            x'.phase.Decided? ==>
              && x.handler.id in x'.work.requests && x.phase.Passed?
              && x.phase.at < x'.work.requests[x.handler.id].expiresAt
  {
    ReachableHistory(events);
    ReachableInv(events);
    TargetCell(Run(INITIAL, events).value, t);
    hide Inv;
    hide Authorizes;
  }
}
