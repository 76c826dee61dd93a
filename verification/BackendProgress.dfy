/** What an undisturbed call to the backend comes to: each handler, run alone, commits exactly what it is for. */
module BackendProgress {
  import opened Common
  import opened Timestamp
  import opened Wire
  import opened BackendInvariant
  import B = Backend
  import Theorems = BackendTheorems
  import Allowlist

  // ---------- runs, step by step ----------

  /** If each event leads from one state to the next, the run leads from the first to the last. */
  lemma {:induction false} RunThrough(states: seq<B.State>, events: seq<B.Event>)
    requires |states| == |events| + 1
    requires forall i :: 0 <= i < |events| ==> B.Next(states[i], events[i]) == Some(states[i + 1])
    ensures B.Run(states[0], events) == Some(states[|events|])
    decreases |events|
  {
    hide B.Next;
    if |events| > 0 {
      var last := |events| - 1;
      RunThrough(states[..last + 1], events[..last]);
      assert B.Next(states[last], events[last]) == Some(states[last + 1]);
    }
  }

  /** The commit of one row, or of one approval, with the audit rows staged beside it. */
  lemma MergedRow(db: B.Db, id: Uuid, row: B.Request, audit: multiset<B.AuditRow>)
    ensures B.Merge(db, B.Db(map[id := row], map[], audit))
         == db.(requests := db.requests[id := row], audit := db.audit + audit)
    ensures B.Merge(db, B.Db(map[id := row], map[], multiset{})) == db.(requests := db.requests[id := row])
  {
    assert db.audit + multiset{} == db.audit;
  }

  lemma MergedApproval(db: B.Db, id: Uuid, a: B.Approval, audit: multiset<B.AuditRow>)
    ensures B.Merge(db, B.Db(map[], map[id := a], audit))
         == db.(approvals := db.approvals[id := a], audit := db.audit + audit)
  {
  }

  lemma RunThree(s: B.State, e: B.Event, s1: B.State, e1: B.Event, s2: B.State, e2: B.Event, s3: B.State)
    requires B.Next(s, e) == Some(s1) && B.Next(s1, e1) == Some(s2) && B.Next(s2, e2) == Some(s3)
    ensures B.Run(s, [e, e1, e2]) == Some(s3)
  {
    hide B.Next;
    hide B.Run;
    RunThrough([s, s1, s2, s3], [e, e1, e2]);
  }

  lemma OneMore(s: B.State, events: seq<B.Event>, mid: B.State, e: B.Event, end: B.State)
    requires B.Run(s, events) == Some(mid) && B.Next(mid, e) == Some(end)
    ensures B.Run(s, events + [e]) == Some(end)
  {
    hide B.Next;
    assert (events + [e])[..|events|] == events;
  }

  /** Nobody else holds the row of this request, and the transaction's number is free. */
  predicate IsFree(s: B.State, t: nat, id: Uuid) {
    t !in s.txns && forall u :: u in s.txns ==> !B.HasRow(s.txns[u], id)
  }

  function Started(h: B.Handler): B.Txn {
    B.Txn(h, if h.Sweep? then B.Ready else B.Begun, B.EMPTY, None)
  }

  lemma OnlyTheCallMoves(s: B.State, t: nat, x: B.Txn, y: B.Txn)
    ensures B.WithTxn(B.WithTxn(s, t, x), t, y) == B.WithTxn(s, t, y)
  {
    assert s.txns[t := x][t := y] == s.txns[t := y];
  }

  lemma Begins(s: B.State, t: nat, h: B.Handler)
    requires t !in s.txns && (h.Submit? ==> h.body.deviceGroup == Allowlist.GroupOf(s.allow, h.body.device))
    ensures B.Next(s, B.Begin(t, h)) == Some(B.WithTxn(s, t, Started(h)))
  {
  }

  lemma Commits(s: B.State, t: nat, x: B.Txn)
    requires t !in s.txns && x.phase.Ready?
    ensures B.Next(B.WithTxn(s, t, x), B.In(t, B.Commit)) == Some(s.(db := B.Merge(s.db, x.work)))
  {
    hide B.Merge;
    assert s.txns[t := x] - {t} == s.txns;
  }

  lemma WritesAudit(s: B.State, t: nat, x: B.Txn, id: Uuid, row: B.AuditRow, next: B.Phase)
    requires !x.handler.Sweep? && id == B.TargetOf(x.handler)
    requires B.AuditDue(x.handler, x.phase, B.OwnRow(x, id), B.OwnApproval(x, id)) == Some((row, next))
    ensures B.Next(B.WithTxn(s, t, x), B.In(t, B.WriteAudit))
         == Some(B.WithTxn(s, t, x.(phase := next, work := x.work.(audit := x.work.audit + multiset{row}))))
  {
    hide B.AuditDue;
    OnlyTheCallMoves(s, t, x, x.(phase := next, work := x.work.(audit := x.work.audit + multiset{row})));
    assert B.StepWriteAudit(B.WithTxn(s, t, x), t)
        == Some(B.WithTxn(s, t, x.(phase := next, work := x.work.(audit := x.work.audit + multiset{row}))));
  }

  /** The conditional UPDATE of a row that nobody else holds, in the version the transaction sees. */
  lemma Transitions(
      s: B.State, t: nat, x: B.Txn, id: Uuid, row: B.Request, status: B.Status, reviewer: Option<nat>, at: Micros)
    requires IsFree(s, t, id) && row.status.Pending?
    requires B.OwnRow(x, id) == Some(row) || (B.OwnRow(x, id).None? && id in s.db.requests && s.db.requests[id] == row)
    ensures B.TransitionStatus(B.WithTxn(s, t, x), t, id, B.Pending, status, reviewer, at)
         == B.Written(x.work.(requests := x.work.requests[
              id := row.(status := status, reviewedBy := reviewer, reviewedAt := Some(at))]))
  {
    assert !B.RequestLocked(B.WithTxn(s, t, x), t, id);
  }

  // ---------- reviews ----------

  function Decided(q: B.Request, status: B.Status, reviewer: Option<nat>, at: Micros): B.Request {
    q.(status := status, reviewedBy := reviewer, reviewedAt := Some(at))
  }

  /** A transaction that holds this row and nothing else. */
  function Holding(h: B.Handler, phase: B.Phase, id: Uuid, row: B.Request): B.Txn {
    B.Txn(h, phase, B.Db(map[id := row], map[], multiset{}), None)
  }

  lemma ReadsPending(s: B.State, t: nat, h: B.Handler, now: Micros)
    requires (h.Approve? || h.Deny?) && h.id in s.db.requests && s.db.requests[h.id].status.Pending?
    ensures B.Next(B.WithTxn(s, t, Started(h)), B.In(t, B.ReadPending(now)))
         == Some(B.WithTxn(s, t, Started(h).(phase :=
              if s.db.requests[h.id].expiresAt <= now then B.Stale(now) else B.Passed(now))))
  {
    var x := Started(h);
    OnlyTheCallMoves(s, t, x, x.(phase := B.Stale(now)));
    OnlyTheCallMoves(s, t, x, x.(phase := B.Passed(now)));
  }

  lemma Decides(s: B.State, t: nat, h: B.Handler, checked: Micros, now: Micros)
    requires (h.Approve? || h.Deny?) && IsFree(s, t, h.id)
    requires h.id in s.db.requests && s.db.requests[h.id].status.Pending?
    ensures var status := if h.Approve? then B.Approved else B.Denied;
            B.Next(B.WithTxn(s, t, Started(h).(phase := B.Passed(checked))), B.In(t, B.Decide(now)))
            == Some(B.WithTxn(s, t, Holding(h, B.Phase.Decided, h.id,
                                            Decided(s.db.requests[h.id], status, Some(h.admin), now))))
  {
    var x := Started(h).(phase := B.Passed(checked));
    var status := if h.Approve? then B.Approved else B.Denied;
    var y := Holding(h, B.Phase.Decided, h.id, Decided(s.db.requests[h.id], status, Some(h.admin), now));
    Transitions(s, t, x, h.id, s.db.requests[h.id], status, Some(h.admin), now);
    hide B.TransitionStatus;
    OnlyTheCallMoves(s, t, x, y);
    assert B.EMPTY.requests[h.id := y.work.requests[h.id]] == y.work.requests;
    assert B.StepDecide(B.WithTxn(s, t, x), t, now) == Some(B.WithTxn(s, t, y));
  }

  lemma Expires(s: B.State, t: nat, h: B.Handler, at: Micros)
    requires (h.Approve? || h.Deny?) && IsFree(s, t, h.id)
    requires h.id in s.db.requests && s.db.requests[h.id].status.Pending?
    ensures B.Next(B.WithTxn(s, t, Started(h).(phase := B.Stale(at))), B.In(t, B.ExpireStale))
         == Some(B.WithTxn(s, t, Holding(h, B.Ready, h.id, Decided(s.db.requests[h.id], B.Expired, None, at))))
  {
    var x := Started(h).(phase := B.Stale(at));
    var y := Holding(h, B.Ready, h.id, Decided(s.db.requests[h.id], B.Expired, None, at));
    Transitions(s, t, x, h.id, s.db.requests[h.id], B.Expired, None, at);
    hide B.TransitionStatus;
    OnlyTheCallMoves(s, t, x, y);
    assert B.EMPTY.requests[h.id := y.work.requests[h.id]] == y.work.requests;
    assert B.StepExpireStale(B.WithTxn(s, t, x), t) == Some(B.WithTxn(s, t, y));
  }

  /** The first three events of a review in time. */
  lemma ReadsAndDecides(s: B.State, t: nat, h: B.Handler, checked: Micros, now: Micros)
    requires (h.Approve? || h.Deny?) && IsFree(s, t, h.id)
    requires h.id in s.db.requests && s.db.requests[h.id].status.Pending? && checked < s.db.requests[h.id].expiresAt
    ensures var status := if h.Approve? then B.Approved else B.Denied;
            B.Run(s, [B.Begin(t, h), B.In(t, B.ReadPending(checked)), B.In(t, B.Decide(now))])
            == Some(B.WithTxn(s, t, Holding(h, B.Phase.Decided, h.id,
                                            Decided(s.db.requests[h.id], status, Some(h.admin), now))))
  {
    Begins(s, t, h);
    ReadsPending(s, t, h, checked);
    Decides(s, t, h, checked, now);
    hide B.Next;
    hide B.Run;
    hide B.WithTxn;
    var status := if h.Approve? then B.Approved else B.Denied;
    var x := Holding(h, B.Phase.Decided, h.id, Decided(s.db.requests[h.id], status, Some(h.admin), now));
    RunThree(s, B.Begin(t, h), B.WithTxn(s, t, Started(h)), B.In(t, B.ReadPending(checked)),
             B.WithTxn(s, t, Started(h).(phase := B.Passed(checked))), B.In(t, B.Decide(now)), B.WithTxn(s, t, x));
  }

  function DenialSteps(t: nat, id: Uuid, admin: nat, checked: Micros, reviewed: Micros): seq<B.Event> {
    [B.Begin(t, B.Deny(id, admin)), B.In(t, B.ReadPending(checked)), B.In(t, B.Decide(reviewed)),
     B.In(t, B.WriteAudit), B.In(t, B.Commit)]
  }

  /**
   * A reviewer who denies a pending request in time, while nobody else holds it, succeeds: the decision
   * and its audit row are committed together and nothing else changes.
   */
  lemma UndisturbedDenialCommits(s: B.State, t: nat, id: Uuid, admin: nat, checked: Micros, reviewed: Micros)
    requires IsFree(s, t, id) && id in s.db.requests && s.db.requests[id].status.Pending?
    requires checked < s.db.requests[id].expiresAt
    ensures var q := s.db.requests[id];
            B.Run(s, DenialSteps(t, id, admin, checked, reviewed)) ==
            Some(s.(db := s.db.(requests := s.db.requests[id := q.(status := B.Denied, reviewedBy := Some(admin),
                                                                   reviewedAt := Some(reviewed))],
                                audit := s.db.audit + multiset{B.DeniedBy(id, admin)})))
  {
    var h, q := B.Deny(id, admin), s.db.requests[id];
    var x := Holding(h, B.Phase.Decided, id, Decided(q, B.Denied, Some(admin), reviewed));
    var row := B.DeniedBy(id, admin);
    var y := x.(phase := B.Ready, work := x.work.(audit := x.work.audit + multiset{row}));
    var s3, s4 := B.WithTxn(s, t, x), B.WithTxn(s, t, y);
    ReadsAndDecides(s, t, h, checked, reviewed);
    WritesAudit(s, t, x, id, row, B.Ready);
    Commits(s, t, y);
    MergedRow(s.db, id, Decided(q, B.Denied, Some(admin), reviewed), multiset{row});
    assert multiset{} + multiset{row} == multiset{row};
    hide B.Next;
    hide B.Run;
    hide B.WithTxn;
    hide B.Merge;
    hide IsFree;
    var three := [B.Begin(t, h), B.In(t, B.ReadPending(checked)), B.In(t, B.Decide(reviewed))];
    OneMore(s, three, s3, B.In(t, B.WriteAudit), s4);
    OneMore(s, three + [B.In(t, B.WriteAudit)], s4, B.In(t, B.Commit), s.(db := B.Merge(s.db, y.work)));
    assert DenialSteps(t, id, admin, checked, reviewed) == three + [B.In(t, B.WriteAudit)] + [B.In(t, B.Commit)];
    assert y.work == B.Db(map[id := Decided(q, B.Denied, Some(admin), reviewed)], map[], multiset{row});
  }

  function StaleSteps(t: nat, h: B.Handler, checked: Micros): seq<B.Event> {
    [B.Begin(t, h), B.In(t, B.ReadPending(checked)), B.In(t, B.ExpireStale), B.In(t, B.Commit)]
  }

  /** A reviewer who comes too late, to approve or to deny, commits EXPIRED, with no reviewer and no audit row. */
  lemma UndisturbedStaleReviewExpires(s: B.State, t: nat, h: B.Handler, checked: Micros)
    requires (h.Approve? || h.Deny?) && IsFree(s, t, h.id)
    requires h.id in s.db.requests && s.db.requests[h.id].status.Pending? && s.db.requests[h.id].expiresAt <= checked
    ensures var q := s.db.requests[h.id];
            B.Run(s, StaleSteps(t, h, checked)) ==
            Some(s.(db := s.db.(requests := s.db.requests[h.id := q.(status := B.Expired, reviewedBy := None,
                                                                     reviewedAt := Some(checked))])))
  {
    var x := Holding(h, B.Ready, h.id, Decided(s.db.requests[h.id], B.Expired, None, checked));
    var s1, s2 := B.WithTxn(s, t, Started(h)), B.WithTxn(s, t, Started(h).(phase := B.Stale(checked)));
    var s3 := B.WithTxn(s, t, x);
    Begins(s, t, h);
    ReadsPending(s, t, h, checked);
    Expires(s, t, h, checked);
    Commits(s, t, x);
    MergedRow(s.db, h.id, Decided(s.db.requests[h.id], B.Expired, None, checked), multiset{});
    hide B.Next;
    hide B.Run;
    hide B.WithTxn;
    hide B.Merge;
    hide IsFree;
    RunThree(s, B.Begin(t, h), s1, B.In(t, B.ReadPending(checked)), s2, B.In(t, B.ExpireStale), s3);
    var three := [B.Begin(t, h), B.In(t, B.ReadPending(checked)), B.In(t, B.ExpireStale)];
    OneMore(s, three, s3, B.In(t, B.Commit), s.(db := B.Merge(s.db, x.work)));
    assert StaleSteps(t, h, checked) == three + [B.In(t, B.Commit)];
  }

  // ---------- the sweep ----------

  function SweepSteps(t: nat, device: Uuid, now: Micros, id: Uuid): seq<B.Event> {
    [B.Begin(t, B.Sweep(device, now)), B.In(t, B.SweepRow(id)), B.In(t, B.Commit)]
  }

  /** The sweep of a device expires its pending request once that is past its expiry. */
  lemma UndisturbedSweepExpires(s: B.State, t: nat, device: Uuid, now: Micros, id: Uuid)
    requires IsFree(s, t, id) && id in s.db.requests && s.db.requests[id].status.Pending?
    requires s.db.requests[id].device == device && s.db.requests[id].expiresAt <= now
    ensures var q := s.db.requests[id];
            B.Run(s, SweepSteps(t, device, now, id)) ==
            Some(s.(db := s.db.(requests := s.db.requests[id := q.(status := B.Expired, reviewedBy := None,
                                                                   reviewedAt := Some(now))])))
  {
    var h := B.Sweep(device, now);
    var x := Holding(h, B.Ready, id, Decided(s.db.requests[id], B.Expired, None, now));
    Begins(s, t, h);
    Sweeps(s, t, device, now, id);
    Commits(s, t, x);
    MergedRow(s.db, id, Decided(s.db.requests[id], B.Expired, None, now), multiset{});
    hide B.Next;
    hide B.Run;
    hide B.WithTxn;
    hide B.Merge;
    hide IsFree;
    RunThree(s, B.Begin(t, h), B.WithTxn(s, t, Started(h)), B.In(t, B.SweepRow(id)), B.WithTxn(s, t, x),
             B.In(t, B.Commit), s.(db := B.Merge(s.db, x.work)));
  }

  lemma Sweeps(s: B.State, t: nat, device: Uuid, now: Micros, id: Uuid)
    requires IsFree(s, t, id) && id in s.db.requests && s.db.requests[id].status.Pending?
    requires s.db.requests[id].device == device && s.db.requests[id].expiresAt <= now
    ensures var h := B.Sweep(device, now);
            B.Next(B.WithTxn(s, t, Started(h)), B.In(t, B.SweepRow(id)))
            == Some(B.WithTxn(s, t, Holding(h, B.Ready, id, Decided(s.db.requests[id], B.Expired, None, now))))
  {
    var x := Started(B.Sweep(device, now));
    var y := Holding(x.handler, B.Ready, id, Decided(s.db.requests[id], B.Expired, None, now));
    Transitions(s, t, x, id, s.db.requests[id], B.Expired, None, now);
    hide B.TransitionStatus;
    OnlyTheCallMoves(s, t, x, y);
    assert B.EMPTY.requests[id := y.work.requests[id]] == y.work.requests;
    assert B.StepSweepRow(B.WithTxn(s, t, x), t, id) == Some(B.WithTxn(s, t, y));
  }

  // ---------- the consumed callback ----------

  function ConsumptionSteps(t: nat, id: Uuid, device: Uuid, now: Micros): seq<B.Event> {
    [B.Begin(t, B.Consume(id, device)), B.In(t, B.ClaimConsumed(now)), B.In(t, B.WriteAudit), B.In(t, B.Commit)]
  }

  /** The device of an approval that was not consumed marks it consumed, with its audit row. */
  lemma UndisturbedConsumptionCommits(s: B.State, t: nat, id: Uuid, device: Uuid, now: Micros)
    requires t !in s.txns && forall u :: u in s.txns ==> !B.HasApproval(s.txns[u], id)
    requires id in s.db.approvals && s.db.approvals[id].device == device && s.db.approvals[id].consumedAt.None?
    ensures B.Run(s, ConsumptionSteps(t, id, device, now)) ==
            Some(s.(db := s.db.(approvals := s.db.approvals[id := s.db.approvals[id].(consumedAt := Some(now))],
                                audit := s.db.audit + multiset{B.AuditRow.Consumed(id, device)})))
  {
    var h := B.Consume(id, device);
    var a := s.db.approvals[id].(consumedAt := Some(now));
    var x := B.Txn(h, B.Claimed, B.Db(map[], map[id := a], multiset{}), None);
    var row := B.AuditRow.Consumed(id, device);
    var y := x.(phase := B.Ready, work := x.work.(audit := x.work.audit + multiset{row}));
    Begins(s, t, h);
    Claims(s, t, id, device, now);
    WritesAudit(s, t, x, id, row, B.Ready);
    Commits(s, t, y);
    MergedApproval(s.db, id, s.db.approvals[id].(consumedAt := Some(now)), multiset{row});
    assert multiset{} + multiset{row} == multiset{row};
    hide B.Next;
    hide B.Run;
    hide B.WithTxn;
    hide B.Merge;
    RunThree(s, B.Begin(t, h), B.WithTxn(s, t, Started(h)), B.In(t, B.ClaimConsumed(now)), B.WithTxn(s, t, x),
             B.In(t, B.WriteAudit), B.WithTxn(s, t, y));
    var three := [B.Begin(t, h), B.In(t, B.ClaimConsumed(now)), B.In(t, B.WriteAudit)];
    OneMore(s, three, B.WithTxn(s, t, y), B.In(t, B.Commit), s.(db := B.Merge(s.db, y.work)));
    assert ConsumptionSteps(t, id, device, now) == three + [B.In(t, B.Commit)];
    assert y.work == B.Db(map[], map[id := s.db.approvals[id].(consumedAt := Some(now))], multiset{row});
  }

  lemma Claims(s: B.State, t: nat, id: Uuid, device: Uuid, now: Micros)
    requires t !in s.txns && forall u :: u in s.txns ==> !B.HasApproval(s.txns[u], id)
    requires id in s.db.approvals && s.db.approvals[id].device == device && s.db.approvals[id].consumedAt.None?
    ensures var h, a := B.Consume(id, device), s.db.approvals[id].(consumedAt := Some(now));
            B.Next(B.WithTxn(s, t, Started(h)), B.In(t, B.ClaimConsumed(now)))
            == Some(B.WithTxn(s, t, B.Txn(h, B.Claimed, B.Db(map[], map[id := a], multiset{}), None)))
  {
    var x := Started(B.Consume(id, device));
    var a := s.db.approvals[id].(consumedAt := Some(now));
    var y := B.Txn(x.handler, B.Claimed, B.Db(map[], map[id := a], multiset{}), None);
    OnlyTheCallMoves(s, t, x, y);
    assert !B.ApprovalLocked(B.WithTxn(s, t, x), t, id);
    assert B.EMPTY.approvals[id := a] == y.work.approvals;
    assert B.StepClaimConsumed(B.WithTxn(s, t, x), t, now) == Some(B.WithTxn(s, t, y));
  }

  // ---------- issuing an approval ----------

  /** An instant that a datetime can name: the years 1 to 9999, in microseconds. */
  predicate IsInstant(us: int) {
    0 <= us < 315_537_897_600_000_000
  }

  /** No approval, committed or in flight, has this nonce. */
  predicate NonceIsFree(s: B.State, nonce: string) {
    !B.HasNonce(s.db, nonce) && forall u :: u in s.txns ==> !B.HasNonce(s.txns[u].work, nonce)
  }

  predicate ApprovalIsFree(s: B.State, t: nat, id: Uuid) {
    t !in s.txns && id !in s.db.approvals && forall u :: u in s.txns ==> !B.HasApproval(s.txns[u], id)
  }

  predicate CanSign(id: Uuid, q: B.Request, expiry: int, nonce: string) {
    IsInstant(expiry) && B.SignedPayload(id, q.device, q.sha256, expiry, nonce).Ok?
  }

  /** The approval of a request row: its device and hash, and the signature over them, the id, expiry and nonce. */
  function IssuedFor(id: Uuid, q: B.Request, issued: Micros, expiry: int, nonce: string): B.Approval
    requires CanSign(id, q, expiry, nonce)
  {
    B.Approval(q.device, q.sha256, nonce, issued, expiry,
               Genuine(B.SignedPayload(id, q.device, q.sha256, expiry, nonce).value), None)
  }

  lemma Signs(s: B.State, t: nat, x: B.Txn, q: B.Request, issued: Micros, ttl: nat, nonce: string)
    requires (x.handler.Approve? || x.handler.Submit?) && x.phase == B.Phase.Decided
    requires B.OwnRow(x, B.TargetOf(x.handler)) == Some(q)
    requires CanSign(B.TargetOf(x.handler), q, issued + ttl * 1_000_000, nonce)
    ensures var a := IssuedFor(B.TargetOf(x.handler), q, issued, issued + ttl * 1_000_000, nonce);
            B.Next(B.WithTxn(s, t, x), B.In(t, B.Sign(issued, ttl, nonce)))
            == Some(B.WithTxn(s, t, x.(phase := B.Signed(a))))
  {
    hide B.SignedPayload;
    var a := IssuedFor(B.TargetOf(x.handler), q, issued, issued + ttl * 1_000_000, nonce);
    OnlyTheCallMoves(s, t, x, x.(phase := B.Signed(a)));
    assert B.InRange(issued + ttl * B.SECOND) == Some(issued + ttl * 1_000_000);
    assert B.StepSign(B.WithTxn(s, t, x), t, issued, ttl, nonce) == Some(B.WithTxn(s, t, x.(phase := B.Signed(a))));
  }

  lemma InsertsApproval(s: B.State, t: nat, x: B.Txn, a: B.Approval)
    requires !x.handler.Sweep? && x.phase == B.Signed(a) && x.work.approvals == map[]
    requires ApprovalIsFree(s, t, B.TargetOf(x.handler)) && NonceIsFree(s, a.nonce)
    ensures B.Next(B.WithTxn(s, t, x), B.In(t, B.InsertApproval))
         == Some(B.WithTxn(s, t, x.(phase := B.Issued,
                                    work := x.work.(approvals := map[B.TargetOf(x.handler) := a]))))
  {
    var id, now := B.TargetOf(x.handler), B.WithTxn(s, t, x);
    var y := x.(phase := B.Issued, work := x.work.(approvals := map[id := a]));
    OnlyTheCallMoves(s, t, x, y);
    assert !B.ApprovalLocked(now, t, id) && !B.NonceLocked(now, t, a.nonce) && !B.HasNonce(x.work, a.nonce);
    assert x.work.approvals[id := a] == map[id := a];
    assert B.StepInsertApproval(now, t) == Some(B.WithTxn(s, t, y));
  }

  /** Neither a pending request nor a fresh id that nobody else holds has an approval anywhere. */
  lemma UndecidedHasNoApproval(s: B.State, t: nat, id: Uuid)
    requires Inv(s) && IsFree(s, t, id) && (id in s.db.requests ==> s.db.requests[id].status.Pending?)
    ensures ApprovalIsFree(s, t, id)
  {
    hide Authorizes;
    assert CellOk(id, CellOf(s.db, id));
    forall u | u in s.txns ensures !B.HasApproval(s.txns[u], id) {
      var x := s.txns[u];
      assert Fits(id, x.handler, x.phase, x.hit.Some?, CellOf(s.db, id), CellOf(x.work, id));
      assert !B.HasRow(x, id);
    }
  }

  lemma MergedBoth(db: B.Db, id: Uuid, row: B.Request, a: B.Approval, audit: multiset<B.AuditRow>)
    ensures B.Merge(db, B.Db(map[id := row], map[id := a], audit))
         == B.Db(db.requests[id := row], db.approvals[id := a], db.audit + audit)
  {
  }

  // ---------- an approval ----------

  /** One reviewer's approval: who approves what, and the clocks, lifetime and nonce it draws on the way. */
  datatype Review = Review(
    t: nat, id: Uuid, admin: nat, checked: Micros, reviewed: Micros, issued: Micros, ttl: nat, nonce: string)

  function ApprovalSteps(v: Review): seq<B.Event> {
    [B.Begin(v.t, B.Approve(v.id, v.admin)), B.In(v.t, B.ReadPending(v.checked)), B.In(v.t, B.Decide(v.reviewed)),
     B.In(v.t, B.Sign(v.issued, v.ttl, v.nonce)), B.In(v.t, B.InsertApproval), B.In(v.t, B.WriteAudit),
     B.In(v.t, B.Commit)]
  }

  function Expiry(v: Review): int {
    v.issued + v.ttl * 1_000_000
  }

  /** The request is there, pending and in time; its row and the nonce are free; and it can be signed. */
  predicate Undisturbed(s: B.State, v: Review) {
    && IsFree(s, v.t, v.id) && NonceIsFree(s, v.nonce)
    && v.id in s.db.requests && s.db.requests[v.id].status.Pending? && v.checked < s.db.requests[v.id].expiresAt
    && CanSign(v.id, Reviewed(s.db.requests[v.id], v), Expiry(v), v.nonce)
  }

  function Reviewed(q: B.Request, v: Review): B.Request {
    q.(status := B.Approved, reviewedBy := Some(v.admin), reviewedAt := Some(v.reviewed))
  }

  function Issued(q: B.Request, v: Review): B.Approval
    requires CanSign(v.id, Reviewed(q, v), Expiry(v), v.nonce)
  {
    IssuedFor(v.id, Reviewed(q, v), v.issued, Expiry(v), v.nonce)
  }

  lemma IssuedIsAudited(z: B.Txn, id: Uuid, a: B.Approval, row: B.AuditRow)
    requires (z.handler.Approve? || z.handler.Submit?) && z.phase == B.Phase.Issued && id == B.TargetOf(z.handler)
    requires B.OwnApproval(z, id) == Some(a)
    requires row == if z.handler.Approve? then B.ApprovedBy(z.handler.id, z.handler.admin, a.nonce)
                    else B.AutoApproved(z.handler.body.id, a.nonce)
    ensures B.AuditDue(z.handler, z.phase, B.OwnRow(z, id), B.OwnApproval(z, id)) == Some((row, B.Ready))
  {
  }

  function SignedTxn(x: B.Txn, a: B.Approval): B.Txn {
    x.(phase := B.Signed(a))
  }

  function IssuedTxn(x: B.Txn, a: B.Approval): B.Txn
    requires !x.handler.Sweep?
  {
    x.(phase := B.Phase.Issued, work := x.work.(approvals := map[B.TargetOf(x.handler) := a]))
  }

  function ReadyTxn(x: B.Txn, a: B.Approval, row: B.AuditRow): B.Txn
    requires !x.handler.Sweep?
  {
    var z := IssuedTxn(x, a);
    z.(phase := B.Ready, work := z.work.(audit := z.work.audit + multiset{row}))
  }

  /** A transaction that has decided this row, has it to itself, and can have it signed. */
  predicate CanIssue(s: B.State, x: B.Txn, t: nat, q: B.Request, expiry: int, nonce: string) {
    && (x.handler.Approve? || x.handler.Submit?) && x.phase == B.Phase.Decided && x.work.approvals == map[]
    && x.work.requests == map[B.TargetOf(x.handler) := q]
    && ApprovalIsFree(s, t, B.TargetOf(x.handler)) && NonceIsFree(s, nonce)
    && CanSign(B.TargetOf(x.handler), q, expiry, nonce)
  }

  function RowFor(h: B.Handler, nonce: string): B.AuditRow
    requires h.Approve? || h.Submit?
  {
    if h.Approve? then B.ApprovedBy(h.id, h.admin, nonce) else B.AutoApproved(h.body.id, nonce)
  }

  lemma IssueSteps(s: B.State, x: B.Txn, t: nat, q: B.Request, issued: Micros, ttl: nat, nonce: string)
    requires CanIssue(s, x, t, q, issued + ttl * 1_000_000, nonce)
    ensures var a := IssuedFor(B.TargetOf(x.handler), q, issued, issued + ttl * 1_000_000, nonce);
            var row := RowFor(x.handler, nonce);
            && B.Next(B.WithTxn(s, t, x), B.In(t, B.Sign(issued, ttl, nonce)))
               == Some(B.WithTxn(s, t, SignedTxn(x, a)))
            && B.Next(B.WithTxn(s, t, SignedTxn(x, a)), B.In(t, B.InsertApproval))
               == Some(B.WithTxn(s, t, IssuedTxn(x, a)))
            && B.Next(B.WithTxn(s, t, IssuedTxn(x, a)), B.In(t, B.WriteAudit))
               == Some(B.WithTxn(s, t, ReadyTxn(x, a, row)))
            && B.Next(B.WithTxn(s, t, ReadyTxn(x, a, row)), B.In(t, B.Commit))
               == Some(s.(db := B.Merge(s.db, ReadyTxn(x, a, row).work)))
  {
    hide B.SignedPayload;
    hide B.Next;
    hide B.Merge;
    hide B.WithTxn;
    hide NonceIsFree;
    hide ApprovalIsFree;
    var id, row := B.TargetOf(x.handler), RowFor(x.handler, nonce);
    var a := IssuedFor(id, q, issued, issued + ttl * 1_000_000, nonce);
    assert t !in s.txns by { FreeNumber(s, t, id); }
    Signs(s, t, x, q, issued, ttl, nonce);
    InsertsApproval(s, t, SignedTxn(x, a), a);
    IssuedIsAudited(IssuedTxn(x, a), id, a, row);
    hide B.AuditDue;
    WritesAudit(s, t, IssuedTxn(x, a), id, row, B.Ready);
    Commits(s, t, ReadyTxn(x, a, row));
  }

  lemma FreeNumber(s: B.State, t: nat, id: Uuid)
    requires ApprovalIsFree(s, t, id)
    ensures t !in s.txns
  {
  }

  /** From the decided row on: signing, the approval, its audit row and the commit. */
  lemma IssuesAndCommits(s: B.State, x: B.Txn, t: nat, q: B.Request, issued: Micros, ttl: nat, nonce: string)
    requires CanIssue(s, x, t, q, issued + ttl * 1_000_000, nonce)
    ensures var id := B.TargetOf(x.handler);
            var a := IssuedFor(id, q, issued, issued + ttl * 1_000_000, nonce);
            B.Run(B.WithTxn(s, t, x), [B.In(t, B.Sign(issued, ttl, nonce)), B.In(t, B.InsertApproval),
                                       B.In(t, B.WriteAudit), B.In(t, B.Commit)])
            == Some(s.(db := B.Db(s.db.requests[id := q], s.db.approvals[id := a],
                                  s.db.audit + (x.work.audit + multiset{RowFor(x.handler, nonce)}))))
  {
    var id, row := B.TargetOf(x.handler), RowFor(x.handler, nonce);
    var a := IssuedFor(id, q, issued, issued + ttl * 1_000_000, nonce);
    var w := ReadyTxn(x, a, row);
    assert w.work == B.Db(map[id := q], map[id := a], x.work.audit + multiset{row});
    hide *;
    IssueSteps(s, x, t, q, issued, ttl, nonce);
    MergedBoth(s.db, id, q, a, w.work.audit);
    var s0 := B.WithTxn(s, t, x);
    var three := [B.In(t, B.Sign(issued, ttl, nonce)), B.In(t, B.InsertApproval), B.In(t, B.WriteAudit)];
    RunThree(s0, B.In(t, B.Sign(issued, ttl, nonce)), B.WithTxn(s, t, SignedTxn(x, a)), B.In(t, B.InsertApproval),
             B.WithTxn(s, t, IssuedTxn(x, a)), B.In(t, B.WriteAudit), B.WithTxn(s, t, w));
    OneMore(s0, three, B.WithTxn(s, t, w), B.In(t, B.Commit), s.(db := B.Merge(s.db, w.work)));
    assert three + [B.In(t, B.Commit)] == [B.In(t, B.Sign(issued, ttl, nonce)), B.In(t, B.InsertApproval),
                                           B.In(t, B.WriteAudit), B.In(t, B.Commit)];
  }

  /**
   * A reviewer who approves a pending request in time, while nobody else holds it, succeeds: the
   * decision, the approval and the audit row are committed together and nothing else changes.
   */
  lemma UndisturbedApprovalCommits(s: B.State, v: Review)
    requires Inv(s) && Undisturbed(s, v)
    ensures var q := s.db.requests[v.id];
            B.Run(s, ApprovalSteps(v)) ==
            Some(s.(db := B.Db(s.db.requests[v.id := Reviewed(q, v)], s.db.approvals[v.id := Issued(q, v)],
                               s.db.audit + multiset{B.ApprovedBy(v.id, v.admin, v.nonce)})))
  {
    hide Inv;
    hide B.SignedPayload;
    hide B.Next;
    hide B.Run;
    hide B.WithTxn;
    var h, q := B.Approve(v.id, v.admin), s.db.requests[v.id];
    var x := Holding(h, B.Phase.Decided, v.id, Reviewed(q, v));
    var row := B.ApprovedBy(v.id, v.admin, v.nonce);
    UndecidedHasNoApproval(s, v.t, v.id);
    hide ApprovalIsFree;
    hide NonceIsFree;
    ReadsAndDecides(s, v.t, h, v.checked, v.reviewed);
    hide IsFree;
    IssuesAndCommits(s, x, v.t, Reviewed(q, v), v.issued, v.ttl, v.nonce);
    assert multiset{} + multiset{row} == multiset{row};
    var three := [B.Begin(v.t, h), B.In(v.t, B.ReadPending(v.checked)), B.In(v.t, B.Decide(v.reviewed))];
    var rest := [B.In(v.t, B.Sign(v.issued, v.ttl, v.nonce)), B.In(v.t, B.InsertApproval),
                 B.In(v.t, B.WriteAudit), B.In(v.t, B.Commit)];
    Theorems.RunComposes(s, three, rest);
    assert ApprovalSteps(v) == three + rest;
  }

  // ---------- submissions ----------

  datatype Filing = Filing(t: nat, body: B.Submission, now: Micros, ttl: nat)

  /** The id is fresh, nobody else is inserting it, and its review window ends at an instant. */
  predicate IsFresh(s: B.State, f: Filing) {
    && f.body.deviceGroup == Allowlist.GroupOf(s.allow, f.body.device)
    && IsFree(s, f.t, f.body.id) && f.body.id !in s.db.requests && IsInstant(f.now + f.ttl * 1_000_000)
  }

  /** A fresh request on the agent route that the allowlist does not cover. */
  predicate Fileable(s: B.State, f: Filing) {
    f.body.agentRoute && IsFresh(s, f) && !Theorems.AllowlistMatches(s, f.body)
  }

  /** What was submitted, PENDING for `ttl` seconds; the dashboard's route stores the hash in lower case. */
  function FiledRow(f: Filing): B.Request
    requires IsInstant(f.now + f.ttl * 1_000_000)
  {
    var b := f.body;
    B.Request(b.device, if b.agentRoute then b.sha256 else Lower(b.sha256), b.filename, b.publisher, b.trust,
              f.now + f.ttl * 1_000_000, B.Pending, None, None)
  }

  function FiledAudit(f: Filing): B.AuditRow
    requires IsInstant(f.now + f.ttl * 1_000_000)
  {
    B.AuditRow.Submitted(f.body.id, f.body.device, f.body.filename, FiledRow(f).sha256)
  }

  function Filed(s: B.State, f: Filing): B.State
    requires IsFresh(s, f)
  {
    s.(db := s.db.(requests := s.db.requests[f.body.id := FiledRow(f)],
                   audit := s.db.audit + multiset{FiledAudit(f)}))
  }

  /** The submission with its row and its audit row written, at this point of its handler. */
  function Audited(f: Filing, phase: B.Phase, row: B.Request, hit: Option<nat>): B.Txn
    requires IsInstant(f.now + f.ttl * 1_000_000)
  {
    B.Txn(B.Submit(f.body), phase, B.Db(map[f.body.id := row], map[], multiset{FiledAudit(f)}), hit)
  }

  lemma Inserts(s: B.State, f: Filing)
    requires IsFresh(s, f)
    ensures B.Next(B.WithTxn(s, f.t, Started(B.Submit(f.body))), B.In(f.t, B.InsertRequest(f.now, f.ttl)))
         == Some(B.WithTxn(s, f.t, Holding(B.Submit(f.body), B.Inserted, f.body.id, FiledRow(f))))
  {
    var x, y := Started(B.Submit(f.body)), Holding(B.Submit(f.body), B.Inserted, f.body.id, FiledRow(f));
    OnlyTheCallMoves(s, f.t, x, y);
    assert !B.RequestLocked(B.WithTxn(s, f.t, x), f.t, f.body.id);
    assert B.EMPTY.requests[f.body.id := FiledRow(f)] == y.work.requests;
    assert B.StepInsertRequest(B.WithTxn(s, f.t, x), f.t, f.now, f.ttl) == Some(B.WithTxn(s, f.t, y));
  }

  /** The first three events of every submission. */
  lemma InsertsAndAudits(s: B.State, f: Filing)
    requires IsFresh(s, f)
    ensures B.Run(s, [B.Begin(f.t, B.Submit(f.body)), B.In(f.t, B.InsertRequest(f.now, f.ttl)),
                      B.In(f.t, B.WriteAudit)])
         == Some(B.WithTxn(s, f.t, Audited(f, if f.body.agentRoute then B.Logged else B.Ready, FiledRow(f), None)))
  {
    var h := B.Submit(f.body);
    var x := Holding(h, B.Inserted, f.body.id, FiledRow(f));
    var y := Audited(f, if f.body.agentRoute then B.Logged else B.Ready, FiledRow(f), None);
    Begins(s, f.t, h);
    Inserts(s, f);
    WritesAudit(s, f.t, x, f.body.id, FiledAudit(f), y.phase);
    assert multiset{} + multiset{FiledAudit(f)} == multiset{FiledAudit(f)};
    hide B.Next;
    hide B.Run;
    hide B.WithTxn;
    hide IsFresh;
    RunThree(s, B.Begin(f.t, h), B.WithTxn(s, f.t, Started(h)), B.In(f.t, B.InsertRequest(f.now, f.ttl)),
             B.WithTxn(s, f.t, x), B.In(f.t, B.WriteAudit), B.WithTxn(s, f.t, y));
  }

  function DashboardFilingSteps(f: Filing): seq<B.Event> {
    [B.Begin(f.t, B.Submit(f.body)), B.In(f.t, B.InsertRequest(f.now, f.ttl)), B.In(f.t, B.WriteAudit),
     B.In(f.t, B.Commit)]
  }

  /** A fresh submission on the dashboard's route commits as PENDING, with its audit row. */
  lemma UndisturbedDashboardSubmissionCommits(s: B.State, f: Filing)
    requires IsFresh(s, f) && !f.body.agentRoute
    ensures B.Run(s, DashboardFilingSteps(f)) == Some(Filed(s, f))
  {
    var y := Audited(f, B.Ready, FiledRow(f), None);
    InsertsAndAudits(s, f);
    Commits(s, f.t, y);
    MergedRow(s.db, f.body.id, FiledRow(f), multiset{FiledAudit(f)});
    hide B.Next;
    hide B.Run;
    hide B.WithTxn;
    hide B.Merge;
    hide IsFresh;
    var three := [B.Begin(f.t, B.Submit(f.body)), B.In(f.t, B.InsertRequest(f.now, f.ttl)), B.In(f.t, B.WriteAudit)];
    OneMore(s, three, B.WithTxn(s, f.t, y), B.In(f.t, B.Commit), s.(db := B.Merge(s.db, y.work)));
    assert DashboardFilingSteps(f) == three + [B.In(f.t, B.Commit)];
  }

  function FilingSteps(f: Filing): seq<B.Event> {
    [B.Begin(f.t, B.Submit(f.body)), B.In(f.t, B.InsertRequest(f.now, f.ttl)), B.In(f.t, B.WriteAudit),
     B.In(f.t, B.AutoDecide(f.now, None)), B.In(f.t, B.Commit)]
  }

  lemma LooksUpNothing(s: B.State, f: Filing)
    requires Fileable(s, f)
    ensures B.Next(B.WithTxn(s, f.t, Audited(f, B.Logged, FiledRow(f), None)), B.In(f.t, B.AutoDecide(f.now, None)))
         == Some(B.WithTxn(s, f.t, Audited(f, B.Ready, FiledRow(f), None)))
  {
    hide IsFree;
    var x, y := Audited(f, B.Logged, FiledRow(f), None), Audited(f, B.Ready, FiledRow(f), None);
    OnlyTheCallMoves(s, f.t, x, y);
    if f.body.publisher.Some? {
      Theorems.SomeMatchIff(s, f.body);
    }
    hide Allowlist.MatchingIds;
    hide Allowlist.Covers;
    hide B.TransitionStatus;
    assert B.StepAutoDecide(B.WithTxn(s, f.t, x), f.t, f.now, None) == Some(B.WithTxn(s, f.t, y));
  }

  /** A fresh submission that the allowlist does not cover commits as PENDING, with its audit row. */
  lemma UndisturbedSubmissionCommits(s: B.State, f: Filing)
    requires Fileable(s, f)
    ensures B.Run(s, FilingSteps(f)) == Some(Filed(s, f))
  {
    var x, y := Audited(f, B.Logged, FiledRow(f), None), Audited(f, B.Ready, FiledRow(f), None);
    InsertsAndAudits(s, f);
    LooksUpNothing(s, f);
    Commits(s, f.t, y);
    MergedRow(s.db, f.body.id, FiledRow(f), multiset{FiledAudit(f)});
    hide B.Next;
    hide B.Run;
    hide B.WithTxn;
    hide B.Merge;
    hide IsFresh;
    hide Theorems.AllowlistMatches;
    var three := [B.Begin(f.t, B.Submit(f.body)), B.In(f.t, B.InsertRequest(f.now, f.ttl)), B.In(f.t, B.WriteAudit)];
    OneMore(s, three, B.WithTxn(s, f.t, x), B.In(f.t, B.AutoDecide(f.now, None)), B.WithTxn(s, f.t, y));
    OneMore(s, three + [B.In(f.t, B.AutoDecide(f.now, None))], B.WithTxn(s, f.t, y), B.In(f.t, B.Commit),
            s.(db := B.Merge(s.db, y.work)));
    assert FilingSteps(f) == three + [B.In(f.t, B.AutoDecide(f.now, None))] + [B.In(f.t, B.Commit)];
  }

  // ---------- an auto-approval ----------

  /** The look-up that finds `entry`, and what is drawn when the approval is issued. */
  datatype Grant = Grant(entry: nat, at: Micros, issued: Micros, ttl: nat, nonce: string)

  function GrantedRow(f: Filing, g: Grant): B.Request
    requires IsInstant(f.now + f.ttl * 1_000_000)
  {
    FiledRow(f).(status := B.Approved, reviewedBy := None, reviewedAt := Some(g.at))
  }

  /** A fresh trusted submission with a publisher, which the entry covers, and which can be signed. */
  predicate Grantable(s: B.State, f: Filing, g: Grant) {
    && f.body.agentRoute && IsFresh(s, f) && f.body.trust.Trusted? && f.body.publisher.Some?
    && g.entry in s.allow.entries
    && Allowlist.Covers(s.allow.entries[g.entry], f.body.deviceGroup, f.body.publisher.value, f.body.filename)
    && NonceIsFree(s, g.nonce) && CanSign(f.body.id, GrantedRow(f, g), g.issued + g.ttl * 1_000_000, g.nonce)
  }

  function GrantSteps(f: Filing, g: Grant): seq<B.Event> {
    [B.Begin(f.t, B.Submit(f.body)), B.In(f.t, B.InsertRequest(f.now, f.ttl)), B.In(f.t, B.WriteAudit)]
    + [B.In(f.t, B.AutoDecide(g.at, Some(g.entry)))]
    + [B.In(f.t, B.Sign(g.issued, g.ttl, g.nonce)), B.In(f.t, B.InsertApproval), B.In(f.t, B.WriteAudit),
       B.In(f.t, B.Commit)]
  }

  lemma LooksUpEntry(s: B.State, f: Filing, g: Grant)
    requires Grantable(s, f, g)
    ensures B.Next(B.WithTxn(s, f.t, Audited(f, B.Logged, FiledRow(f), None)),
                   B.In(f.t, B.AutoDecide(g.at, Some(g.entry))))
         == Some(B.WithTxn(s, f.t, Audited(f, B.Phase.Decided, GrantedRow(f, g), Some(g.entry))))
  {
    hide B.SignedPayload;
    var x := Audited(f, B.Logged, FiledRow(f), None);
    var y := Audited(f, B.Phase.Decided, GrantedRow(f, g), Some(g.entry));
    OnlyTheCallMoves(s, f.t, x, y);
    Transitions(s, f.t, x, f.body.id, FiledRow(f), B.Approved, None, g.at);
    Allowlist.MatchesIff(s.allow, f.body.deviceGroup, f.body.publisher.value, f.body.filename, g.entry);
    hide B.TransitionStatus;
    hide Allowlist.MatchingIds;
    hide Allowlist.Covers;
    hide IsFree;
    assert x.work.requests[f.body.id := GrantedRow(f, g)] == y.work.requests;
    assert B.StepAutoDecide(B.WithTxn(s, f.t, x), f.t, g.at, Some(g.entry)) == Some(B.WithTxn(s, f.t, y));
  }

  /**
   * A fresh trusted submission that an entry covers commits as APPROVED with no reviewer, with its
   * signed approval, and with the audit rows of its submission and of its auto-approval.
   */
  lemma UndisturbedAutoApprovalCommits(s: B.State, f: Filing, g: Grant)
    requires Inv(s) && Grantable(s, f, g)
    ensures var id, q := f.body.id, GrantedRow(f, g);
            B.Run(s, GrantSteps(f, g)) ==
            Some(s.(db := B.Db(s.db.requests[id := q],
                               s.db.approvals[id := IssuedFor(id, q, g.issued, g.issued + g.ttl * 1_000_000, g.nonce)],
                               s.db.audit + multiset{FiledAudit(f), B.AutoApproved(id, g.nonce)})))
  {
    hide Inv;
    hide B.SignedPayload;
    hide Allowlist.Covers;
    var id, q := f.body.id, GrantedRow(f, g);
    var x, y := Audited(f, B.Logged, FiledRow(f), None), Audited(f, B.Phase.Decided, q, Some(g.entry));
    var row := B.AutoApproved(id, g.nonce);
    UndecidedHasNoApproval(s, f.t, id);
    InsertsAndAudits(s, f);
    LooksUpEntry(s, f, g);
    IssuesAndCommits(s, y, f.t, q, g.issued, g.ttl, g.nonce);
    assert multiset{FiledAudit(f)} + multiset{row} == multiset{FiledAudit(f), row};
    hide B.Next;
    hide B.Run;
    hide B.WithTxn;
    hide Grantable;
    var three := [B.Begin(f.t, B.Submit(f.body)), B.In(f.t, B.InsertRequest(f.now, f.ttl)), B.In(f.t, B.WriteAudit)];
    var rest := [B.In(f.t, B.Sign(g.issued, g.ttl, g.nonce)), B.In(f.t, B.InsertApproval),
                 B.In(f.t, B.WriteAudit), B.In(f.t, B.Commit)];
    OneMore(s, three, B.WithTxn(s, f.t, x), B.In(f.t, B.AutoDecide(g.at, Some(g.entry))), B.WithTxn(s, f.t, y));
    Theorems.RunComposes(s, three + [B.In(f.t, B.AutoDecide(g.at, Some(g.entry)))], rest);
  }

  // ---------- when it is disturbed ----------

  /** A review that has passed its tests and has written nothing yet. */
  predicate IsReviewing(s: B.State, t: nat) {
    && t in s.txns && (s.txns[t].handler.Approve? || s.txns[t].handler.Deny?) && s.txns[t].phase.Passed?
    && s.txns[t].handler.id in s.db.requests
  }

  /**
   * A review whose row another transaction holds waits. If that one rolls back the review goes through;
   * if it commits, which is a decision on the row, the review has lost.
   */
  lemma TheLoserWaits(s: B.State, t: nat, u: nat, now: Micros)
    requires Inv(s) && IsReviewing(s, t) && u in s.txns && t != u
    requires s.db.requests[s.txns[t].handler.id].status.Pending? && B.HasRow(s.txns[u], s.txns[t].handler.id)
    ensures B.Next(s, B.In(t, B.Decide(now))).None?
    ensures B.Next(s, B.In(u, B.Rollback)).Some?
    ensures GoesThrough(B.Next(s, B.In(u, B.Rollback)).value, t, now)
    ensures s.txns[u].phase.Ready? ==>
              B.Next(s, B.In(u, B.Commit)).Some? && HasLost(B.Next(s, B.In(u, B.Commit)).value, t, now)
  {
    var id := s.txns[t].handler.id;
    WaitingHoldsNothing(s, t, id);
    OnlyOneHolds(s, t, u, id);
    ItWaits(s, t, u, now);
    ItGoesThrough(s.(txns := s.txns - {u}), t, now);
    if s.txns[u].phase.Ready? {
      HolderDecides(s, u, id);
      ItLoses(s.(db := B.Merge(s.db, s.txns[u].work), txns := s.txns - {u}), t, now);
    }
    hide Inv;
    hide B.StepDecide;
    hide GoesThrough;
    hide HasLost;
  }

  /** The transaction's conditional UPDATE matches and it goes on. */
  predicate GoesThrough(s: B.State, t: nat, now: Micros) {
    && B.Next(s, B.In(t, B.Decide(now))).Some? && t in B.Next(s, B.In(t, B.Decide(now))).value.txns
    && B.Next(s, B.In(t, B.Decide(now))).value.txns[t].phase.Decided?
  }

  /** It matches no row, and the transaction can only roll back. */
  predicate HasLost(s: B.State, t: nat, now: Micros) {
    t in s.txns && B.Next(s, B.In(t, B.Decide(now))) == Some(B.WithTxn(s, t, s.txns[t].(phase := B.Lost)))
  }

  lemma ItWaits(s: B.State, t: nat, u: nat, now: Micros)
    requires IsReviewing(s, t) && B.OwnRow(s.txns[t], s.txns[t].handler.id).None? && u in s.txns && t != u
    requires B.HasRow(s.txns[u], s.txns[t].handler.id) && s.db.requests[s.txns[t].handler.id].status.Pending?
    ensures B.Next(s, B.In(t, B.Decide(now))).None?
  {
    assert B.RequestLocked(s, t, s.txns[t].handler.id);
    assert B.StepDecide(s, t, now).None?;
  }

  lemma ItGoesThrough(s: B.State, t: nat, now: Micros)
    requires IsReviewing(s, t) && B.OwnRow(s.txns[t], s.txns[t].handler.id).None?
    requires forall u :: u in s.txns && u != t ==> !B.HasRow(s.txns[u], s.txns[t].handler.id)
    requires s.db.requests[s.txns[t].handler.id].status.Pending?
    ensures GoesThrough(s, t, now)
  {
    assert !B.RequestLocked(s, t, s.txns[t].handler.id);
    assert B.StepDecide(s, t, now).Some?;
  }

  lemma ItLoses(s: B.State, t: nat, now: Micros)
    requires IsReviewing(s, t) && B.OwnRow(s.txns[t], s.txns[t].handler.id).None?
    requires !s.db.requests[s.txns[t].handler.id].status.Pending?
    ensures HasLost(s, t, now)
  {
    assert B.StepDecide(s, t, now) == Some(B.WithTxn(s, t, s.txns[t].(phase := B.Lost)));
  }

  lemma WaitingHoldsNothing(s: B.State, t: nat, id: Uuid)
    requires Inv(s) && t in s.txns && s.txns[t].phase.Passed?
    requires (s.txns[t].handler.Approve? || s.txns[t].handler.Deny?) && s.txns[t].handler.id == id
    ensures id !in s.txns[t].work.requests
  {
    hide Authorizes;
    var x := s.txns[t];
    assert Fits(id, x.handler, x.phase, x.hit.Some?, CellOf(s.db, id), CellOf(x.work, id));
  }

  lemma OnlyOneHolds(s: B.State, t: nat, u: nat, id: Uuid)
    requires Inv(s) && u in s.txns && B.HasRow(s.txns[u], id)
    ensures forall v :: v in s.txns && v != u ==> !B.HasRow(s.txns[v], id)
  {
    forall v | v in s.txns && v != u ensures !B.HasRow(s.txns[v], id) {
      assert Apart(s.txns[u], s.txns[v]);
      assert CellOf(s.txns[u].work, id) != NOTHING;
      assert CellOf(s.txns[v].work, id) == NOTHING;
    }
  }

  /** Whoever is ready to commit a pending row commits a decision on it. */
  lemma HolderDecides(s: B.State, u: nat, id: Uuid)
    requires Inv(s) && u in s.txns && s.txns[u].phase.Ready? && B.HasRow(s.txns[u], id) && id in s.db.requests
    ensures !s.txns[u].work.requests[id].status.Pending?
  {
    hide Fits;
    var x := s.txns[u];
    assert Fits(id, x.handler, x.phase, x.hit.Some?, CellOf(s.db, id), CellOf(x.work, id));
    ReadyCellIsDecided(id, x.handler, x.hit.Some?, CellOf(s.db, id), CellOf(x.work, id));
  }

  lemma ReadyCellIsDecided(id: Uuid, h: B.Handler, hit: bool, base: Cell, w: Cell)
    requires Fits(id, h, B.Ready, hit, base, w) && w.row.Some? && base.row.Some?
    ensures !w.row.value.status.Pending?
  {
    hide Authorizes;
  }

  /**
   * So do the other statements, neither going on nor losing: an insert of a request that another
   * transaction is inserting, of an approval or a nonce that another has inserted, and a claim of an
   * approval that another has claimed.
   */
  lemma HeldRowsAreWaitedFor(s: B.State, t: nat, u: nat, now: Micros, ttl: nat)
    requires t in s.txns && u in s.txns && t != u
    ensures var x := s.txns[t];
            x.handler.Submit? && x.phase.Begun? && IsInstant(now + ttl * 1_000_000)
            && B.OwnRow(x, x.handler.body.id).None? && x.handler.body.id !in s.db.requests
            && x.handler.body.id in s.txns[u].work.requests
            ==> B.StepInsertRequest(s, t, now, ttl).None?
    ensures var x := s.txns[t];
            !x.handler.Sweep? && x.phase.Signed? && x.work.approvals == map[]
            && B.TargetOf(x.handler) !in s.db.approvals && !B.HasNonce(s.db, x.phase.approval.nonce)
            && (B.TargetOf(x.handler) in s.txns[u].work.approvals
                || B.HasNonce(s.txns[u].work, x.phase.approval.nonce))
            ==> B.StepInsertApproval(s, t).None?
    ensures var x := s.txns[t];
            x.handler.Consume? && x.phase.Begun? && x.work.approvals == map[] && x.handler.id in s.db.approvals
            && s.db.approvals[x.handler.id].device == x.handler.device
            && s.db.approvals[x.handler.id].consumedAt.None? && x.handler.id in s.txns[u].work.approvals
            ==> B.StepClaimConsumed(s, t, now).None?
  {
    var x := s.txns[t];
    if x.handler.Submit? && x.handler.body.id in s.txns[u].work.requests {
      assert B.RequestLocked(s, t, x.handler.body.id) by { assert B.HasRow(s.txns[u], x.handler.body.id); }
    }
    if !x.handler.Sweep? && B.TargetOf(x.handler) in s.txns[u].work.approvals {
      assert B.HasApproval(s.txns[u], B.TargetOf(x.handler));
      assert B.ApprovalLocked(s, t, B.TargetOf(x.handler));
    }
    if x.phase.Signed? && B.HasNonce(s.txns[u].work, x.phase.approval.nonce) {
      assert B.NonceLocked(s, t, x.phase.approval.nonce);
    }
  }

  /** A second request under a committed id, and a second approval or a nonce used before, lose. */
  lemma DuplicatesLose(s: B.State, t: nat, now: Micros, ttl: nat)
    requires t in s.txns
    ensures var x := s.txns[t];
            x.handler.Submit? && x.phase.Begun? && x.handler.body.id in s.db.requests ==>
              B.Next(s, B.In(t, B.InsertRequest(now, ttl))) == Some(B.WithTxn(s, t, x.(phase := B.Lost)))
    ensures var x := s.txns[t];
            !x.handler.Sweep? && x.phase.Signed?
            && (B.TargetOf(x.handler) in s.db.approvals || B.HasNonce(s.db, x.phase.approval.nonce)) ==>
              B.Next(s, B.In(t, B.InsertApproval)) == Some(B.WithTxn(s, t, x.(phase := B.Lost)))
  {
  }
}
