/**
 * The backend as a transition system: committed tables, and transactions in flight that hold their
 * own uncommitted rows. One event is one SQL statement, one commit or one abort.
 *
 * A request row is named by its unique `request_uuid`; an approval row by the request it belongs to
 * (`elevation_request_id` is unique). Devices are named by their unique `device_uuid`.
 */
module Backend {
  import opened Common
  import opened Timestamp
  import opened Utf8
  import opened CanonicalPayload
  import opened Wire
  import Allowlist

  datatype Status = Pending | Approved | Denied | Expired

  datatype Trust = Unsigned | Trusted | Untrusted | HashMismatch | Revoked | Unknown

  datatype Request = Request(
    device: Uuid, sha256: string, filename: string, publisher: Option<string>, trust: Trust, expiresAt: Micros,
    status: Status, reviewedAt: Option<Micros>, reviewedBy: Option<nat>)

  datatype Approval = Approval(
    device: Uuid, sha256: string, nonce: string, issuedAt: Micros, expiresAt: Micros, signature: Signature,
    consumedAt: Option<Micros>)

  /** An audit row: its action, what it is about, its actor, and what its metadata says of the tables. */
  datatype AuditRow =
    | Submitted(request: Uuid, device: Uuid, filename: string, sha256: string)
    | ApprovedBy(request: Uuid, admin: nat, nonce: string)
    | AutoApproved(request: Uuid, nonce: string)
    | DeniedBy(request: Uuid, admin: nat)
    | Consumed(request: Uuid, device: Uuid)

  /** Committed tables, and also the uncommitted rows of one transaction, which overlay them. */
  datatype Db = Db(requests: map<Uuid, Request>, approvals: map<Uuid, Approval>, audit: multiset<AuditRow>)

  const EMPTY := Db(map[], map[], multiset{})

  function Merge(db: Db, work: Db): Db {
    Db(db.requests + work.requests, db.approvals + work.approvals, db.audit + work.audit)
  }

  datatype Submission = Submission(
    id: Uuid, device: Uuid, sha256: string, filename: string, publisher: Option<string>, trust: Trust,
    agentRoute: bool, deviceGroup: Option<nat>)

  datatype Handler =
    | Submit(body: Submission)
    | Approve(id: Uuid, admin: nat)
    | Deny(id: Uuid, admin: nat)
    | Sweep(device: Uuid, now: Micros)
    | Consume(id: Uuid, device: Uuid)

  /** Where a handler stands. A `Lost` handler has raised and can only roll back. */
  datatype Phase =
    | Begun
    | Passed(at: Micros)
    | Stale(at: Micros)
    | Inserted
    | Logged
    | Decided
    | Signed(approval: Approval)
    | Issued
    | Claimed
    | Ready
    | Lost

  /** `hit` is the allowlist entry that auto-approves the submission, once one was found. */
  datatype Txn = Txn(handler: Handler, phase: Phase, work: Db, hit: Option<nat>)

  /** `released` holds every signed payload that ever left the backend in a poll response. */
  datatype State = State(db: Db, allow: Allowlist.Tables, txns: map<nat, Txn>, released: set<seq<Byte>>)

  /** What a transaction in flight does next: a statement, its commit, or its rollback at any point. */
  datatype Statement =
    | Rollback
    | Commit
    | InsertRequest(now: Micros, ttl: nat)
    | ReadPending(now: Micros)
    | ExpireStale
    | Decide(now: Micros)
    | AutoDecide(now: Micros, hit: Option<nat>)
    | Sign(now: Micros, ttl: nat, nonce: string)
    | InsertApproval
    | WriteAudit
    | SweepRow(id: Uuid)
    | ClaimConsumed(now: Micros)

  datatype Event =
    | Begin(t: nat, handler: Handler)
    | In(t: nat, statement: Statement)
    | Poll(device: Uuid, since: Micros)
    | Administer(op: Allowlist.Operation)

  // ---------- statements ----------

  /** The row a statement of transaction `t` sees: its own version, else the committed one. */
  function Visible(s: State, t: nat, id: Uuid): Option<Request>
    requires t in s.txns
  {
    if id in s.txns[t].work.requests then Some(s.txns[t].work.requests[id])
    else if id in s.db.requests then Some(s.db.requests[id])
    else None
  }

  predicate HasRow(x: Txn, id: Uuid) {
    id in x.work.requests
  }

  predicate HasApproval(x: Txn, id: Uuid) {
    id in x.work.approvals
  }

  predicate HasNonce(db: Db, nonce: string) {
    exists id :: id in db.approvals && db.approvals[id].nonce == nonce
  }

  predicate RequestLocked(s: State, t: nat, id: Uuid) {
    exists u :: u in s.txns && u != t && HasRow(s.txns[u], id)
  }

  predicate ApprovalLocked(s: State, t: nat, id: Uuid) {
    exists u :: u in s.txns && u != t && HasApproval(s.txns[u], id)
  }

  predicate NonceLocked(s: State, t: nat, nonce: string) {
    exists u :: u in s.txns && u != t && HasNonce(s.txns[u].work, nonce)
  }

  datatype Outcome = Blocked | NoMatch | Written(work: Db)

  /**
   * `UPDATE ... WHERE id = ? AND status = ? RETURNING` under READ COMMITTED: a row another transaction
   * holds blocks the statement, whose WHERE is then evaluated on the version that transaction left.
   */
  function TransitionStatus(
      s: State, t: nat, id: Uuid, expected: Status, status: Status, reviewer: Option<nat>, at: Micros): Outcome
    requires t in s.txns
  {
    match Visible(s, t, id)
    case None => NoMatch
    case Some(row) =>
      if row.status != expected then NoMatch
      else if RequestLocked(s, t, id) then Blocked
      else
        var w := s.txns[t].work;
        var row' := row.(status := status, reviewedBy := reviewer, reviewedAt := Some(at));
        Written(w.(requests := w.requests[id := row']))
  }

  /** INSERT under the unique `request_uuid`: an uncommitted duplicate blocks, a committed one violates. */
  function CreateRequest(s: State, t: nat, id: Uuid, row: Request): Outcome
    requires t in s.txns
  {
    if id in s.db.requests || HasRow(s.txns[t], id) then NoMatch
    else if RequestLocked(s, t, id) then Blocked
    else var w := s.txns[t].work; Written(w.(requests := w.requests[id := row]))
  }

  /** INSERT under the unique `elevation_request_id` and `nonce`. */
  function CreateApproval(s: State, t: nat, id: Uuid, row: Approval): Outcome
    requires t in s.txns
  {
    var x := s.txns[t];
    if id in s.db.approvals || HasApproval(x, id) || HasNonce(s.db, row.nonce) || HasNonce(x.work, row.nonce)
    then NoMatch
    else if ApprovalLocked(s, t, id) || NonceLocked(s, t, row.nonce) then Blocked
    else Written(x.work.(approvals := x.work.approvals[id := row]))
  }

  /** `UPDATE approvals ... WHERE consumed_at IS NULL`. */
  function MarkConsumed(s: State, t: nat, id: Uuid, at: Micros): Outcome
    requires t in s.txns
  {
    if id !in s.db.approvals || s.db.approvals[id].consumedAt.Some? || HasApproval(s.txns[t], id) then NoMatch
    else if ApprovalLocked(s, t, id) then Blocked
    else
      var w := s.txns[t].work;
      Written(w.(approvals := w.approvals[id := s.db.approvals[id].(consumedAt := Some(at))]))
  }

  // ---------- handlers ----------

  const SECOND := 1_000_000

  function InRange(us: int): Option<Micros> {
    if 0 <= us < 315_537_897_600_000_000 then Some(us) else None
  }

  function NewRow(b: Submission, expiresAt: Micros): Request {
    Request(b.device, if b.agentRoute then b.sha256 else Lower(b.sha256), b.filename, b.publisher, b.trust, expiresAt,
            Pending, None, None)
  }

  function SignedPayload(id: Uuid, device: Uuid, sha256: string, expiresAt: Micros, nonce: string)
    : Result<seq<Byte>, PayloadError>
  {
    PythonPayload(Hyphenated(device), Hyphenated(id), sha256, PythonDatetime(expiresAt, Some(0)), nonce)
  }

  /** Only a trusted signature with a publisher is ever looked up in the allowlist. */
  predicate Eligible(row: Request) {
    row.trust.Trusted? && row.publisher.Some?
  }

  function WithTxn(s: State, t: nat, x: Txn): State {
    s.(txns := s.txns[t := x])
  }

  /** The transaction goes on after a statement: it waits, it has lost, or it has written. */
  function After(s: State, t: nat, o: Outcome, next: Phase): Option<State>
    requires t in s.txns
  {
    match o
    case Blocked => None
    case NoMatch => Some(WithTxn(s, t, s.txns[t].(phase := Lost)))
    case Written(work) => Some(WithTxn(s, t, s.txns[t].(phase := next, work := work)))
  }

  function StepInsertRequest(s: State, t: nat, now: Micros, ttl: nat): Option<State>
    requires t in s.txns
  {
    var x := s.txns[t];
    if !(x.handler.Submit? && x.phase.Begun?) then None
    else
      match InRange(now + ttl * SECOND)
      case None => Some(WithTxn(s, t, x.(phase := Lost)))
      case Some(expiresAt) =>
        After(s, t, CreateRequest(s, t, x.handler.body.id, NewRow(x.handler.body, expiresAt)), Inserted)
  }

  function StepReadPending(s: State, t: nat, now: Micros): Option<State>
    requires t in s.txns
  {
    var x := s.txns[t];
    if !((x.handler.Approve? || x.handler.Deny?) && x.phase.Begun?) then None
    else
      var id := x.handler.id;
      if id !in s.db.requests || !s.db.requests[id].status.Pending? then Some(WithTxn(s, t, x.(phase := Lost)))
      else if s.db.requests[id].expiresAt <= now then Some(WithTxn(s, t, x.(phase := Stale(now))))
      else Some(WithTxn(s, t, x.(phase := Passed(now))))
  }

  function StepExpireStale(s: State, t: nat): Option<State>
    requires t in s.txns
  {
    var x := s.txns[t];
    if !((x.handler.Approve? || x.handler.Deny?) && x.phase.Stale?) then None
    else
      match TransitionStatus(s, t, x.handler.id, Pending, Expired, None, x.phase.at)
      case Blocked => None
      case NoMatch => Some(WithTxn(s, t, x.(phase := Ready)))
      case Written(work) => Some(WithTxn(s, t, x.(phase := Ready, work := work)))
  }

  function StepDecide(s: State, t: nat, now: Micros): Option<State>
    requires t in s.txns
  {
    var x := s.txns[t];
    if !((x.handler.Approve? || x.handler.Deny?) && x.phase.Passed?) then None
    else
      var status := if x.handler.Approve? then Approved else Denied;
      After(s, t, TransitionStatus(s, t, x.handler.id, Pending, status, Some(x.handler.admin), now), Decided)
  }

  function StepAutoDecide(s: State, t: nat, now: Micros, hit: Option<nat>): Option<State>
    requires t in s.txns
  {
    var x := s.txns[t];
    if !(x.handler.Submit? && x.handler.body.agentRoute && x.phase.Logged?) then None
    else
      var b := x.handler.body;
      match Visible(s, t, b.id)
      case None => None
      case Some(row) =>
        if !Eligible(row) then Some(WithTxn(s, t, x.(phase := Ready)))
        else if !Allowlist.IsFindMatchAnswer(s.allow, b.deviceGroup, row.publisher.value, row.filename, hit) then None
        else if hit.None? then Some(WithTxn(s, t, x.(phase := Ready)))
        else
          match TransitionStatus(s, t, b.id, Pending, Approved, None, now)
          case Blocked => None
          case NoMatch => Some(WithTxn(s, t, x.(phase := Ready)))
          case Written(work) => Some(WithTxn(s, t, x.(phase := Decided, work := work, hit := hit)))
  }

  function StepSign(s: State, t: nat, now: Micros, ttl: nat, nonce: string): Option<State>
    requires t in s.txns
  {
    var x := s.txns[t];
    if !((x.handler.Approve? || x.handler.Submit?) && x.phase.Decided?) then None
    else
      var id := TargetOf(x.handler);
      match (Visible(s, t, id), InRange(now + ttl * SECOND))
      case (Some(row), Some(expiresAt)) =>
        (match SignedPayload(id, row.device, row.sha256, expiresAt, nonce)
         case Err(_) => Some(WithTxn(s, t, x.(phase := Lost)))
         case Ok(payload) =>
           var a := Approval(row.device, row.sha256, nonce, now, expiresAt, Genuine(payload), None);
           Some(WithTxn(s, t, x.(phase := Signed(a)))))
      case _ => Some(WithTxn(s, t, x.(phase := Lost)))
  }

  function TargetOf(h: Handler): Uuid
    requires !h.Sweep?
  {
    if h.Submit? then h.body.id else h.id
  }

  function StepInsertApproval(s: State, t: nat): Option<State>
    requires t in s.txns
  {
    var x := s.txns[t];
    if x.handler.Sweep? || !x.phase.Signed? then None
    else After(s, t, CreateApproval(s, t, TargetOf(x.handler), x.phase.approval), Issued)
  }

  function StepClaimConsumed(s: State, t: nat, now: Micros): Option<State>
    requires t in s.txns
  {
    var x := s.txns[t];
    if !(x.handler.Consume? && x.phase.Begun?) then None
    else if x.handler.id !in s.db.approvals || s.db.approvals[x.handler.id].device != x.handler.device
    then Some(WithTxn(s, t, x.(phase := Lost)))
    else After(s, t, MarkConsumed(s, t, x.handler.id, now), Claimed)
  }

  /**
   * The audit row a handler stages at this point, of its own request row and approval, and the phase it
   * goes on to.
   */
  function AuditDue(h: Handler, p: Phase, q: Option<Request>, a: Option<Approval>): Option<(AuditRow, Phase)> {
    match (h, p, q, a)
    case (Submit(b), Inserted, Some(row), _) =>
      Some((Submitted(b.id, b.device, row.filename, row.sha256), if b.agentRoute then Logged else Ready))
    case (Submit(b), Issued, _, Some(approval)) => Some((AutoApproved(b.id, approval.nonce), Ready))
    case (Approve(id, admin), Issued, _, Some(approval)) => Some((ApprovedBy(id, admin, approval.nonce), Ready))
    case (Deny(id, admin), Decided, _, _) => Some((DeniedBy(id, admin), Ready))
    case (Consume(id, device), Claimed, _, _) => Some((Consumed(id, device), Ready))
    case _ => None
  }

  function OwnRow(x: Txn, id: Uuid): Option<Request> {
    if id in x.work.requests then Some(x.work.requests[id]) else None
  }

  function OwnApproval(x: Txn, id: Uuid): Option<Approval> {
    if id in x.work.approvals then Some(x.work.approvals[id]) else None
  }

  function StepWriteAudit(s: State, t: nat): Option<State>
    requires t in s.txns
  {
    var x := s.txns[t];
    if x.handler.Sweep? then None
    else
      var id := TargetOf(x.handler);
      match AuditDue(x.handler, x.phase, OwnRow(x, id), OwnApproval(x, id))
      case None => None
      case Some((row, next)) =>
        Some(WithTxn(s, t, x.(phase := next, work := x.work.(audit := x.work.audit + multiset{row}))))
  }

  /** One row of the bulk UPDATE that expires a device's stale requests. */
  function StepSweepRow(s: State, t: nat, id: Uuid): Option<State>
    requires t in s.txns
  {
    var x := s.txns[t];
    if !x.handler.Sweep? || id !in s.db.requests || HasRow(x, id) then None
    else if s.db.requests[id].device != x.handler.device || s.db.requests[id].expiresAt > x.handler.now then None
    else
      match TransitionStatus(s, t, id, Pending, Expired, None, x.handler.now)
      case Written(work) => Some(WithTxn(s, t, x.(work := work)))
      case _ => None
  }

  // ---------- polling ----------

  datatype Decision = Decision(request: Uuid, status: Status, token: Option<WireToken>)

  function TokenOf(id: Uuid, a: Approval): WireToken {
    WireToken(Hyphenated(a.device), Hyphenated(id), a.sha256, ToTicks(a.expiresAt), a.nonce, a.signature)
  }

  function DecisionOf(db: Db, id: Uuid): Decision
    requires id in db.requests
  {
    Decision(id, db.requests[id].status, if id in db.approvals then Some(TokenOf(id, db.approvals[id])) else None)
  }

  predicate IsOffered(db: Db, device: Uuid, since: Micros, id: Uuid) {
    && id in db.requests && db.requests[id].device == device
    && !db.requests[id].status.Pending?
    && db.requests[id].reviewedAt.Some? && db.requests[id].reviewedAt.value >= since
  }

  /** What a poll of this device answers. */
  function Offered(db: Db, device: Uuid, since: Micros): set<Decision> {
    set id | id in db.requests && IsOffered(db, device, since, id) :: DecisionOf(db, id)
  }

  function PayloadsOf(decisions: set<Decision>): set<seq<Byte>> {
    set d | d in decisions && d.token.Some? && d.token.value.signature.Genuine? :: d.token.value.signature.payload
  }

  // ---------- the transition system ----------

  function Execute(s: State, t: nat, statement: Statement): Option<State>
    requires t in s.txns
  {
    match statement
    case Rollback => Some(s.(txns := s.txns - {t}))
    case Commit =>
      if s.txns[t].phase.Ready?
      then Some(s.(db := Merge(s.db, s.txns[t].work), txns := s.txns - {t}))
      else None
    case InsertRequest(now, ttl) => StepInsertRequest(s, t, now, ttl)
    case ReadPending(now) => StepReadPending(s, t, now)
    case ExpireStale => StepExpireStale(s, t)
    case Decide(now) => StepDecide(s, t, now)
    case AutoDecide(now, hit) => StepAutoDecide(s, t, now, hit)
    case Sign(now, ttl, nonce) => StepSign(s, t, now, ttl, nonce)
    case InsertApproval => StepInsertApproval(s, t)
    case WriteAudit => StepWriteAudit(s, t)
    case SweepRow(id) => StepSweepRow(s, t, id)
    case ClaimConsumed(now) => StepClaimConsumed(s, t, now)
  }

  function Next(s: State, e: Event): Option<State> {
    match e
    case Begin(t, h) =>
      if t in s.txns then None
      else if h.Submit? && h.body.deviceGroup != Allowlist.GroupOf(s.allow, h.body.device) then None
      else Some(WithTxn(s, t, Txn(h, if h.Sweep? then Ready else Begun, EMPTY, None)))
    case In(t, statement) => if t in s.txns then Execute(s, t, statement) else None
    case Poll(device, since) =>
      Some(s.(released := s.released + PayloadsOf(Offered(s.db, device, since))))
    case Administer(op) => Some(s.(allow := Allowlist.Apply(s.allow, op)))
  }

  /** Runs the events in order; None when some event was not possible. */
  function Run(s: State, events: seq<Event>): Option<State>
    decreases |events|
  {
    if events == [] then Some(s)
    else
      match Run(s, events[..|events| - 1])
      case None => None
      case Some(mid) => Next(mid, events[|events| - 1])
  }

  const INITIAL := State(EMPTY, Allowlist.Tables(map[], map[], map[]), map[], {})
}
