/**
 * The inductive invariant of the backend. Rows are said one request id at a time: a cell is what a
 * set of tables holds under one id, and the cell of a transaction overlays the committed one.
 */
module BackendInvariant {
  import opened Common
  import opened Timestamp
  import opened Utf8
  import opened CanonicalPayload
  import opened Wire
  import opened Backend
  import Allowlist

  datatype Cell = Cell(row: Option<Request>, approval: Option<Approval>)

  const NOTHING := Cell(None, None)

  function CellOf(db: Db, id: Uuid): Cell {
    Cell(if id in db.requests then Some(db.requests[id]) else None,
         if id in db.approvals then Some(db.approvals[id]) else None)
  }

  function Over(base: Cell, w: Cell): Cell {
    Cell(if w.row.Some? then w.row else base.row, if w.approval.Some? then w.approval else base.approval)
  }

  // ---------- what a committed cell looks like ----------

  /** The approval carries the backend's signature on exactly this request, device, hash, expiry and nonce. */
  predicate Authorizes(id: Uuid, q: Request, a: Approval) {
    && a.device == q.device && a.sha256 == q.sha256
    && a.signature.Genuine?
    && SignedPayload(id, a.device, a.sha256, a.expiresAt, a.nonce) == Ok(a.signature.payload)
  }

  predicate CellOk(id: Uuid, c: Cell) {
    match c.row
    case None => c.approval.None?
    case Some(q) =>
      && (q.reviewedAt.None? <==> q.status.Pending?)
      && (q.status.Denied? ==> q.reviewedBy.Some?)
      && (q.status.Pending? || q.status.Expired? ==> q.reviewedBy.None?)
      && (c.approval.Some? <==> q.status.Approved?)
      && (c.approval.Some? ==> Authorizes(id, q, c.approval.value))
  }

  /** Approved by this reviewer, or by none, under this nonce. */
  predicate ApprovedWith(c: Cell, reviewer: Option<nat>, nonce: string) {
    && c.row.Some? && c.row.value.status.Approved? && c.row.value.reviewedBy == reviewer
    && c.approval.Some? && c.approval.value.nonce == nonce
  }

  /** The audit rows the tables call for: one for each of these facts, and no other. */
  predicate Due(c: Cell, a: AuditRow) {
    match a
    case Submitted(_, device, filename, sha256) =>
      && c.row.Some? && c.row.value.device == device && c.row.value.filename == filename
      && c.row.value.sha256 == sha256
    case ApprovedBy(_, admin, nonce) => ApprovedWith(c, Some(admin), nonce)
    case AutoApproved(_, nonce) => ApprovedWith(c, None, nonce)
    case DeniedBy(_, admin) => c.row.Some? && c.row.value.status.Denied? && c.row.value.reviewedBy == Some(admin)
    case Consumed(_, device) =>
      c.approval.Some? && c.approval.value.consumedAt.Some? && c.approval.value.device == device
  }

  function Count(b: bool): nat {
    if b then 1 else 0
  }

  // ---------- what a transaction may hold ----------

  predicate FromBody(q: Request, b: Submission) {
    q.device == b.device && q.filename == b.filename && q.publisher == b.publisher && q.trust == b.trust
  }

  /** A request this transaction inserts, not yet reviewed or approved by the allowlist. */
  predicate Inserts(b: Submission, base: Cell, w: Cell, approved: bool) {
    && base.row.None? && w.row.Some? && FromBody(w.row.value, b)
    && w.row.value.reviewedBy.None?
    && (if approved
        then w.row.value.status.Approved? && w.row.value.reviewedAt.Some? && b.agentRoute && Eligible(w.row.value)
        else w.row.value.status.Pending? && w.row.value.reviewedAt.None? && w.approval.None?)
  }

  /** A committed pending request this transaction reviews. */
  predicate Reviews(base: Cell, w: Cell, status: Status, reviewer: Option<nat>) {
    && base.row.Some? && base.row.value.status.Pending? && w.row.Some? && w.row.value.reviewedAt.Some?
    && w.row.value
       == base.row.value.(status := status, reviewedBy := reviewer, reviewedAt := w.row.value.reviewedAt)
  }

  predicate IsFresh(id: Uuid, q: Request, a: Approval) {
    Authorizes(id, q, a) && a.consumedAt.None?
  }

  predicate Approves(id: Uuid, w: Cell) {
    w.row.Some? && w.approval.Some? && IsFresh(id, w.row.value, w.approval.value)
  }

  predicate SubmitFits(b: Submission, p: Phase, hit: bool, base: Cell, w: Cell) {
    match p
    case Begun => w == NOTHING && !hit
    case Inserted => Inserts(b, base, w, false) && !hit
    case Logged => Inserts(b, base, w, false) && !hit
    case Decided => Inserts(b, base, w, true) && w.approval.None? && hit
    case Signed(a) => Inserts(b, base, w, true) && w.approval.None? && IsFresh(b.id, w.row.value, a) && hit
    case Issued => Inserts(b, base, w, true) && Approves(b.id, w) && hit
    case Ready => Inserts(b, base, w, hit) && (hit ==> Approves(b.id, w))
    case _ => false
  }

  predicate ApproveFits(id: Uuid, admin: nat, p: Phase, base: Cell, w: Cell) {
    match p
    case Begun => w == NOTHING
    case Passed(_) => w == NOTHING
    case Stale(_) => w == NOTHING
    case Decided => Reviews(base, w, Approved, Some(admin)) && w.approval.None?
    case Signed(a) =>
      Reviews(base, w, Approved, Some(admin)) && w.approval.None? && IsFresh(id, w.row.value, a)
    case Issued => Reviews(base, w, Approved, Some(admin)) && Approves(id, w)
    case Ready =>
      || w == NOTHING
      || (Reviews(base, w, Expired, None) && w.approval.None?)
      || (Reviews(base, w, Approved, Some(admin)) && Approves(id, w))
    case _ => false
  }

  predicate DenyFits(admin: nat, p: Phase, base: Cell, w: Cell) {
    match p
    case Begun => w == NOTHING
    case Passed(_) => w == NOTHING
    case Stale(_) => w == NOTHING
    case Decided => Reviews(base, w, Denied, Some(admin)) && w.approval.None?
    case Ready =>
      || w == NOTHING
      || (Reviews(base, w, Expired, None) && w.approval.None?)
      || (Reviews(base, w, Denied, Some(admin)) && w.approval.None?)
    case _ => false
  }

  predicate SweepFits(device: Uuid, p: Phase, base: Cell, w: Cell) {
    p.Ready? && (w == NOTHING || (Reviews(base, w, Expired, None) && w.approval.None? && w.row.value.device == device))
  }

  predicate Claims(base: Cell, w: Cell) {
    && w.row.None? && w.approval.Some? && base.approval.Some? && base.approval.value.consumedAt.None?
    && w.approval.value.consumedAt.Some?
    && w.approval.value == base.approval.value.(consumedAt := w.approval.value.consumedAt)
  }

  predicate ConsumeFits(device: Uuid, p: Phase, base: Cell, w: Cell) {
    match p
    case Begun => w == NOTHING
    case Claimed => Claims(base, w) && w.approval.value.device == device
    case Ready => Claims(base, w) && w.approval.value.device == device
    case _ => false
  }

  /** Whatever a transaction holds, it holds a row that was absent or pending, or one approval alone. */
  predicate Holds(base: Cell, w: Cell) {
    || w == NOTHING
    || (w.row.Some? && (base.row.None? || base.row.value.status.Pending?))
    || (w.row.None? && w.approval.Some? && base.approval.Some?)
  }

  predicate Fits(id: Uuid, h: Handler, p: Phase, hit: bool, base: Cell, w: Cell) {
    && Holds(base, w)
    && match h
       case Submit(b) => if id == b.id then p.Lost? || SubmitFits(b, p, hit, base, w) else w == NOTHING
       case Approve(i, admin) => if id == i then p.Lost? || ApproveFits(i, admin, p, base, w) else w == NOTHING
       case Deny(i, admin) => if id == i then p.Lost? || DenyFits(admin, p, base, w) else w == NOTHING
       case Sweep(device, _) => SweepFits(device, p, base, w)
       case Consume(i, device) => if id == i then p.Lost? || ConsumeFits(device, p, base, w) else w == NOTHING
  }

  function SubmittedRows(b: Submission, w: Cell): multiset<AuditRow> {
    if w.row.Some? then multiset{AuditRow.Submitted(b.id, b.device, w.row.value.filename, w.row.value.sha256)}
    else multiset{}
  }

  function ApprovedRows(w: Cell, a: AuditRow): multiset<AuditRow> {
    if Due(w, a) then multiset{a} else multiset{}
  }

  /** The audit rows a transaction has staged so far, given its cell at its own request. */
  function Staged(h: Handler, p: Phase, w: Cell): multiset<AuditRow> {
    match h
    case Submit(b) =>
      if p.Logged? || p.Decided? || p.Signed? || p.Issued? then SubmittedRows(b, w)
      else if p.Ready? && w.approval.Some? then
        SubmittedRows(b, w) + ApprovedRows(w, AutoApproved(b.id, w.approval.value.nonce))
      else if p.Ready? then SubmittedRows(b, w)
      else multiset{}
    case Approve(id, admin) =>
      if p.Ready? && w.approval.Some? then ApprovedRows(w, ApprovedBy(id, admin, w.approval.value.nonce))
      else multiset{}
    case Deny(id, admin) =>
      if p.Ready? && Due(w, DeniedBy(id, admin)) then multiset{DeniedBy(id, admin)} else multiset{}
    case Sweep(_, _) => multiset{}
    case Consume(id, device) => if p.Ready? then multiset{AuditRow.Consumed(id, device)} else multiset{}
  }

  predicate AuditStaged(x: Txn) {
    || x.phase.Lost?
    || (x.handler.Sweep? && x.work.audit == multiset{})
    || (!x.handler.Sweep? && x.work.audit == Staged(x.handler, x.phase, CellOf(x.work, TargetOf(x.handler))))
  }

  // ---------- the invariant ----------

  ghost predicate CellsOk(db: Db) {
    forall id: Uuid :: CellOk(id, CellOf(db, id))
  }

  ghost predicate AuditBalanced(db: Db) {
    forall a: AuditRow :: db.audit[a] == Count(Due(CellOf(db, a.request), a))
  }

  ghost predicate TxnOk(db: Db, x: Txn) {
    && (forall id: Uuid :: Fits(id, x.handler, x.phase, x.hit.Some?, CellOf(db, id), CellOf(x.work, id)))
    && AuditStaged(x)
  }

  ghost predicate Apart(x: Txn, y: Txn) {
    forall id: Uuid :: CellOf(x.work, id) == NOTHING || CellOf(y.work, id) == NOTHING
  }

  ghost predicate NoncesApart(x: Db, y: Db) {
    forall i: Uuid, j: Uuid ::
      i in x.approvals && j in y.approvals && x.approvals[i].nonce == y.approvals[j].nonce ==> i == j
  }

  ghost predicate ReleasedOk(db: Db, released: set<seq<Byte>>) {
    forall p :: p in released ==> exists id: Uuid :: IsSignedFor(db, id, p)
  }

  predicate IsSignedFor(db: Db, id: Uuid, payload: seq<Byte>) {
    id in db.approvals && db.approvals[id].signature == Genuine(payload)
  }

  ghost predicate Inv(s: State) {
    && CellsOk(s.db)
    && AuditBalanced(s.db)
    && NoncesApart(s.db, s.db)
    && ReleasedOk(s.db, s.released)
    && Allowlist.Valid(s.allow)
    && (forall t :: t in s.txns ==> TxnOk(s.db, s.txns[t]))
    && (forall t :: t in s.txns ==> NoncesApart(s.txns[t].work, s.db))
    && (forall t, u :: t in s.txns && u in s.txns && t != u ==> Apart(s.txns[t], s.txns[u]))
    && (forall t, u :: t in s.txns && u in s.txns ==> NoncesApart(s.txns[t].work, s.txns[u].work))
  }

  // ---------- committing ----------

  lemma MergeCell(db: Db, work: Db, id: Uuid)
    ensures CellOf(Merge(db, work), id) == Over(CellOf(db, id), CellOf(work, id))
  {
  }

  lemma CommittedCellOk(id: Uuid, h: Handler, hit: bool, base: Cell, w: Cell)
    requires CellOk(id, base) && Fits(id, h, Ready, hit, base, w)
    ensures CellOk(id, Over(base, w))
  {
  }

  lemma SubmitAudit(b: Submission, hit: bool, base: Cell, w: Cell, a: AuditRow)
    requires CellOk(b.id, base) && SubmitFits(b, Ready, hit, base, w) && a.request == b.id
    ensures Count(Due(base, a)) + Staged(Submit(b), Ready, w)[a] == Count(Due(Over(base, w), a))
  {
  }

  lemma ApproveAudit(id: Uuid, admin: nat, base: Cell, w: Cell, a: AuditRow)
    requires CellOk(id, base) && ApproveFits(id, admin, Ready, base, w) && a.request == id
    ensures Count(Due(base, a)) + Staged(Approve(id, admin), Ready, w)[a] == Count(Due(Over(base, w), a))
  {
  }

  lemma DenyAudit(id: Uuid, admin: nat, base: Cell, w: Cell, a: AuditRow)
    requires CellOk(id, base) && DenyFits(admin, Ready, base, w) && a.request == id
    ensures Count(Due(base, a)) + Staged(Deny(id, admin), Ready, w)[a] == Count(Due(Over(base, w), a))
  {
  }

  lemma ConsumeAudit(id: Uuid, device: Uuid, base: Cell, w: Cell, a: AuditRow)
    requires CellOk(id, base) && ConsumeFits(device, Ready, base, w) && a.request == id
    ensures Count(Due(base, a)) + Staged(Consume(id, device), Ready, w)[a] == Count(Due(Over(base, w), a))
  {
  }

  lemma SweepAudit(device: Uuid, base: Cell, w: Cell, a: AuditRow)
    requires CellOk(a.request, base) && SweepFits(device, Ready, base, w)
    ensures Count(Due(base, a)) == Count(Due(Over(base, w), a))
  {
  }

  lemma StagedElsewhere(h: Handler, p: Phase, w: Cell, a: AuditRow)
    requires !h.Sweep? && a.request != TargetOf(h)
    ensures Staged(h, p, w)[a] == 0
  {
  }
}
