/**
 * The whole protocol: the backend, any number of agents, and a network that may drop, repeat, reorder
 * and alter everything except what Ed25519 protects. A decision that reaches an agent is arbitrary, but
 * a genuine signature in it must be one that some poll response has carried.
 */
module System {
  import opened Common
  import opened Timestamp
  import opened Utf8
  import opened Wire
  import opened WindowsPaths
  import opened TokenValidation
  import opened BackendInvariant
  import B = Backend
  import Safety = BackendSafety
  import Theorems = BackendTheorems
  import Payload = CanonicalPayload
  import A = Agent

  datatype Launched = Launched(agent: Uuid, launch: A.Launch)

  datatype World = World(backend: B.State, agents: map<Uuid, A.State>, launches: seq<Launched>)

  datatype Event = OfBackend(step: B.Event) | OfAgent(agent: Uuid, action: A.Event)

  predicate Obtainable(released: set<seq<Byte>>, token: WireToken) {
    token.signature.Genuine? ==> token.signature.payload in released
  }

  predicate Deliverable(released: set<seq<Byte>>, e: A.Event) {
    e.Deliver? && e.decision.token.Some? ==> Obtainable(released, e.decision.token.value)
  }

  function NextOfAgent(w: World, d: Uuid, e: A.Event): Option<World> {
    if d !in w.agents || !Deliverable(w.backend.released, e) then None
    else
      match A.Next(w.agents[d], Hyphenated(d), e)
      case None => None
      case Some((s, launch)) =>
        Some(w.(agents := w.agents[d := s],
                launches := if launch.Some? then w.launches + [Launched(d, launch.value)] else w.launches))
  }

  function Next(w: World, event: Event): Option<World> {
    match event
    case OfBackend(e) =>
      (match B.Next(w.backend, e)
       case None => None
       case Some(s) => Some(w.(backend := s)))
    case OfAgent(d, e) => NextOfAgent(w, d, e)
  }

  function Run(w: World, events: seq<Event>): Option<World>
    decreases |events|
  {
    if |events| == 0 then Some(w)
    else
      match Run(w, events[..|events| - 1])
      case None => None
      case Some(mid) => Next(mid, events[|events| - 1])
  }

  /** An empty backend, and agents that have just started with whatever their ledgers hold on disk. */
  predicate IsInitial(w: World) {
    && w.backend == B.INITIAL && w.launches == []
    && forall d :: d in w.agents ==> w.agents[d].requests == map[] && w.agents[d].task.Idle?
  }

  // ---------- the invariant ----------

  /** The committed approval `id` lets agent `d` run what this launch record names, hash aside. */
  predicate Permits(db: B.Db, d: Uuid, l: A.Launch, id: Uuid) {
    && id in db.requests && db.requests[id].status.Approved? && db.requests[id].device == d
    && id in db.approvals && db.approvals[id].device == d && db.approvals[id].sha256 == db.requests[id].sha256
    && l.request == Hyphenated(id)
    && l.token.nonce == db.approvals[id].nonce
    && SameHash(l.token.sha256, db.approvals[id].sha256)
    && l.clock < ToTicks(db.approvals[id].expiresAt)
    && l.path == l.tracked && IsCanonical(l.path)
  }

  /** It also has the hash that was read from the file. */
  predicate Authorized(db: B.Db, d: Uuid, l: A.Launch, id: Uuid) {
    Permits(db, d, l, id) && SameHash(db.requests[id].sha256, l.hash)
  }

  predicate LaunchedFor(launches: seq<Launched>, d: Uuid, request: string) {
    exists i :: 0 <= i < |launches| && launches[i].agent == d && launches[i].launch.request == request
  }

  ghost predicate TaskOk(b: B.State, launches: seq<Launched>, d: Uuid, s: A.State) {
    match s.task
    case Idle => true
    case Handling(_, path, token) => Obtainable(b.released, token) && IsCanonical(path)
    case Hashed(_, tracked, path, _, token) =>
      Obtainable(b.released, token) && path == tracked && IsCanonical(path)
    case Admitted(l) => exists id: Uuid :: Permits(b.db, d, l, id)
    case Cleared(l) =>
      && (exists id: Uuid :: Authorized(b.db, d, l, id))
      && l.token.nonce in s.ledger
      && NotLaunched(launches, d, l.token.nonce)
    case Running(request) => LaunchedFor(launches, d, request)
    case Ran(request, success) => success ==> LaunchedFor(launches, d, request)
  }

  predicate NotLaunched(launches: seq<Launched>, d: Uuid, nonce: string) {
    forall i :: 0 <= i < |launches| && launches[i].agent == d ==> launches[i].launch.token.nonce != nonce
  }

  ghost predicate AgentOk(b: B.State, launches: seq<Launched>, d: Uuid, s: A.State) {
    && TaskOk(b, launches, d, s)
    && (forall k :: k in s.requests ==> IsCanonical(s.requests[k].path))
    && (forall k :: k in s.requests && s.requests[k].status.Approved? ==> LaunchedFor(launches, d, k))
    && LedgerHolds(launches, d, s.ledger)
  }

  predicate LedgerHolds(launches: seq<Launched>, d: Uuid, ledger: set<string>) {
    forall i :: 0 <= i < |launches| && launches[i].agent == d ==> launches[i].launch.token.nonce in ledger
  }

  /** Some committed approval authorizes this launch. */
  ghost predicate IsAuthorized(db: B.Db, x: Launched) {
    exists id: Uuid :: Authorized(db, x.agent, x.launch, id)
  }

  ghost predicate NoncesDistinct(launches: seq<Launched>) {
    forall i, j :: 0 <= i < j < |launches| && launches[i].agent == launches[j].agent
      ==> launches[i].launch.token.nonce != launches[j].launch.token.nonce
  }

  ghost predicate LaunchesOk(db: B.Db, launches: seq<Launched>) {
    && (forall i :: 0 <= i < |launches| ==> IsAuthorized(db, launches[i]))
    && NoncesDistinct(launches)
  }

  ghost predicate WorldInv(w: World) {
    && Inv(w.backend)
    && (forall d :: d in w.agents ==> AgentOk(w.backend, w.launches, d, w.agents[d]))
    && LaunchesOk(w.backend.db, w.launches)
  }

  // ---------- backend steps ----------

  lemma PermitsExtends(db: B.Db, later: B.Db, d: Uuid, l: A.Launch, id: Uuid)
    requires Theorems.Extends(db, later, id)
    ensures Permits(db, d, l, id) ==> Permits(later, d, l, id)
    ensures Authorized(db, d, l, id) ==> Authorized(later, d, l, id)
  {
    hide SameHash;
    hide IsCanonical;
  }

  lemma ExecuteKeepsReleased(s: B.State, t: nat, statement: B.Statement)
    requires t in s.txns && B.Execute(s, t, statement).Some?
    ensures B.Execute(s, t, statement).value.released == s.released
  {
    hide B.TransitionStatus;
    hide B.CreateRequest;
    hide B.CreateApproval;
    hide B.MarkConsumed;
    hide B.SignedPayload;
    hide B.Merge;
    match statement
    case Rollback =>
    case Commit =>
    case InsertRequest(_, _) =>
    case ReadPending(_) =>
    case ExpireStale =>
    case Decide(_) =>
    case AutoDecide(_, _) =>
    case Sign(_, _, _) =>
    case InsertApproval =>
    case WriteAudit =>
    case SweepRow(_) =>
    case ClaimConsumed(_) =>
  }

  lemma ReleasedGrows(s: B.State, e: B.Event)
    requires B.Next(s, e).Some?
    ensures s.released <= B.Next(s, e).value.released
  {
    match e
    case Begin(_, _) =>
    case Poll(_, _) =>
    case Administer(_) =>
    case In(t, statement) =>
      ExecuteKeepsReleased(s, t, statement);
  }

  lemma BackendStepKeepsAgent(b: B.State, b': B.State, launches: seq<Launched>, d: Uuid, s: A.State)
    requires AgentOk(b, launches, d, s) && b.released <= b'.released
    requires forall id: Uuid :: Theorems.Extends(b.db, b'.db, id)
    ensures AgentOk(b', launches, d, s)
  {
    hide Permits;
    hide Authorized;
    hide IsCanonical;
    hide Theorems.Extends;
    if s.task.Admitted? {
      var id: Uuid :| Permits(b.db, d, s.task.launch, id);
      PermitsExtends(b.db, b'.db, d, s.task.launch, id);
    } else if s.task.Cleared? {
      var id: Uuid :| Authorized(b.db, d, s.task.launch, id);
      PermitsExtends(b.db, b'.db, d, s.task.launch, id);
    }
  }

  lemma LaunchesOkExtends(db: B.Db, later: B.Db, launches: seq<Launched>)
    requires LaunchesOk(db, launches) && forall id: Uuid :: Theorems.Extends(db, later, id)
    ensures LaunchesOk(later, launches)
  {
    hide Permits;
    hide Authorized;
    hide Theorems.Extends;
    hide NoncesDistinct;
    forall i | 0 <= i < |launches| ensures IsAuthorized(later, launches[i]) {
      var id: Uuid :| Authorized(db, launches[i].agent, launches[i].launch, id);
      PermitsExtends(db, later, launches[i].agent, launches[i].launch, id);
    }
  }

  lemma BackendStepKeepsWorldInv(w: World, e: B.Event)
    requires WorldInv(w) && B.Next(w.backend, e).Some?
    ensures WorldInv(w.(backend := B.Next(w.backend, e).value))
  {
    hide Inv;
    hide LaunchesOk;
    hide AgentOk;
    hide B.Next;
    var w' := w.(backend := B.Next(w.backend, e).value);
    Safety.NextKeepsInv(w.backend, e);
    ReleasedGrows(w.backend, e);
    forall id: Uuid ensures Theorems.Extends(w.backend.db, w'.backend.db, id) {
      Theorems.NextExtends(w.backend, e, id);
    }
    forall d | d in w'.agents ensures AgentOk(w'.backend, w'.launches, d, w'.agents[d]) {
      BackendStepKeepsAgent(w.backend, w'.backend, w.launches, d, w.agents[d]);
    }
    LaunchesOkExtends(w.backend.db, w'.backend.db, w.launches);
  }

  // ---------- agent steps ----------

  /**
   * The heart of the matter: a token that passes the checks carries a signature some poll released, so
   * the payload the agent rebuilt is the payload of a committed approval, and every field agrees.
   */
  lemma AdmittedTokenIsApproved(s: B.State, d: Uuid, request: string, token: WireToken, now: Ticks) returns (id: Uuid)
    requires Inv(s) && Obtainable(s.released, token)
    requires Admission(token, Hyphenated(d), request, now).None?
    ensures id in s.db.requests && s.db.requests[id].status.Approved? && s.db.requests[id].device == d
    ensures id in s.db.approvals && s.db.approvals[id].device == d
    ensures s.db.approvals[id].sha256 == s.db.requests[id].sha256
    ensures request == Hyphenated(id) && token.nonce == s.db.approvals[id].nonce
    ensures SameHash(token.sha256, s.db.approvals[id].sha256)
    ensures now < ToTicks(s.db.approvals[id].expiresAt)
  {
    hide B.SignedPayload;
    hide RebuiltPayload;
    hide Hyphenated;
    hide SameHash;
    assert token.signature == Genuine(RebuiltPayload(token).value);
    id :| IsSignedFor(s.db, id, token.signature.payload);
    ApprovalOfCell(s.db, id);
    SameBytesSameFields(id, s.db.approvals[id], token);
    HyphenatedInjective(s.db.approvals[id].device, d);
  }

  lemma SameBytesSameFields(id: Uuid, a: B.Approval, token: WireToken)
    requires B.SignedPayload(id, a.device, a.sha256, a.expiresAt, a.nonce).Ok?
    requires B.SignedPayload(id, a.device, a.sha256, a.expiresAt, a.nonce) == RebuiltPayload(token)
    ensures token.device == Hyphenated(a.device) && token.request == Hyphenated(id) && token.nonce == a.nonce
    ensures SameHash(token.sha256, a.sha256) && token.expiresAt == ToTicks(a.expiresAt)
  {
    Payload.RebuiltBytesEqualSignedBytes(
      Hyphenated(a.device), Hyphenated(id), a.sha256, PythonDatetime(a.expiresAt, Some(0)), a.nonce,
      token.device, token.request, token.sha256, token.expiresAt, token.nonce);
  }

  lemma ApprovalOfCell(db: B.Db, id: Uuid)
    requires CellsOk(db) && id in db.approvals
    ensures id in db.requests && db.requests[id].status.Approved?
    ensures Authorizes(id, db.requests[id], db.approvals[id])
  {
    hide B.SignedPayload;
    assert CellOk(id, CellOf(db, id));
  }

  lemma CheckedPathIsTheTrackedPath(path: string, drive: DriveClass, onDisk: bool)
    requires A.CheckPath(path, drive, onDisk).Some?
    ensures IsCanonical(A.CheckPath(path, drive, onDisk).value)
    ensures IsCanonical(path) ==> A.CheckPath(path, drive, onDisk).value == path
  {
    ValidateIff(path, _ => drive);
    CanonicalizeIdempotent(path);
  }

  // Appending a launch of agent d.

  lemma LaunchedForGrows(launches: seq<Launched>, more: Launched, d: Uuid, request: string)
    ensures LaunchedFor(launches, d, request) ==> LaunchedFor(launches + [more], d, request)
    ensures LaunchedFor(launches + [more], more.agent, more.launch.request)
  {
    if LaunchedFor(launches, d, request) {
      var i :| 0 <= i < |launches| && launches[i].agent == d && launches[i].launch.request == request;
      assert (launches + [more])[i] == launches[i];
    }
    assert (launches + [more])[|launches|] == more;
  }

  lemma OtherAgentKept(b: B.State, launches: seq<Launched>, more: Launched, d: Uuid, s: A.State)
    requires AgentOk(b, launches, d, s) && more.agent != d
    ensures AgentOk(b, launches + [more], d, s)
  {
    hide Permits;
    hide Authorized;
    hide IsCanonical;
    hide LaunchedFor;
    forall k | k in s.requests && s.requests[k].status.Approved? ensures LaunchedFor(launches + [more], d, k) {
      LaunchedForGrows(launches, more, d, k);
    }
    match s.task
    case Running(request) => LaunchedForGrows(launches, more, d, request);
    case Ran(request, _) => LaunchedForGrows(launches, more, d, request);
    case _ =>
  }

  lemma StartKeepsAgent(b: B.State, launches: seq<Launched>, d: Uuid, s: A.State)
    requires AgentOk(b, launches, d, s) && s.task.Cleared?
    ensures AgentOk(b, launches + [Launched(d, s.task.launch)], d, s.(task := A.Running(s.task.launch.request)))
  {
    hide Permits;
    hide Authorized;
    hide IsCanonical;
    hide LaunchedFor;
    var more := Launched(d, s.task.launch);
    LaunchedForGrows(launches, more, d, s.task.launch.request);
    forall k | k in s.requests && s.requests[k].status.Approved? ensures LaunchedFor(launches + [more], d, k) {
      LaunchedForGrows(launches, more, d, k);
    }
  }

  lemma StartKeepsLaunches(b: B.State, launches: seq<Launched>, d: Uuid, s: A.State)
    requires LaunchesOk(b.db, launches) && AgentOk(b, launches, d, s) && s.task.Cleared?
    ensures LaunchesOk(b.db, launches + [Launched(d, s.task.launch)])
  {
    hide Permits;
    hide Authorized;
    hide IsCanonical;
    hide LaunchedFor;
    var more := launches + [Launched(d, s.task.launch)];
    assert TaskOk(b, launches, d, s);
    var own: Uuid :| Authorized(b.db, d, s.task.launch, own);
    forall i | 0 <= i < |more| ensures IsAuthorized(b.db, more[i]) {
      if i < |launches| {
        assert more[i] == launches[i];
      } else {
        assert Authorized(b.db, more[i].agent, more[i].launch, own);
      }
    }
    assert NotLaunched(launches, d, s.task.launch.token.nonce);
    forall i, j | 0 <= i < j < |more| && more[i].agent == more[j].agent
      ensures more[i].launch.token.nonce != more[j].launch.token.nonce
    {
      assert more[i] == launches[i];
      if j < |launches| {
        assert more[j] == launches[j];
      }
    }
  }

  /** Setting a status keeps the invariant, when Approved is set only for a request that was launched. */
  lemma StatusKeepsAgent(
      b: B.State, launches: seq<Launched>, d: Uuid, s: A.State, request: string, status: A.LocalStatus)
    requires AgentOk(b, launches, d, s) && (status.Approved? ==> LaunchedFor(launches, d, request))
    ensures AgentOk(b, launches, d, A.WithStatus(s, request, status))
  {
    hide Permits;
    hide Authorized;
    hide IsCanonical;
    hide LaunchedFor;
  }

  lemma DeliverKeepsAgent(b: B.State, launches: seq<Launched>, d: Uuid, s: A.State, decision: A.Decision)
    requires AgentOk(b, launches, d, s) && A.StepDeliver(s, decision).Some?
    requires decision.token.Some? ==> Obtainable(b.released, decision.token.value)
    ensures AgentOk(b, launches, d, A.StepDeliver(s, decision).value)
  {
    hide Permits;
    hide Authorized;
    hide IsCanonical;
    hide LaunchedFor;
    StatusKeepsAgent(b, launches, d, s, decision.request, A.Denied);
    StatusKeepsAgent(b, launches, d, s, decision.request, A.LocalStatus.Expired);
    StatusKeepsAgent(b, launches, d, s, decision.request, A.Failed);
    hide A.WithStatus;
  }

  lemma AdmitKeepsAgent(b: B.State, launches: seq<Launched>, d: Uuid, s: A.State, now: Ticks)
    requires Inv(b) && AgentOk(b, launches, d, s) && A.StepAdmit(s, Hyphenated(d), now).Some?
    ensures AgentOk(b, launches, d, A.StepAdmit(s, Hyphenated(d), now).value)
  {
    hide Inv;
    hide Authorized;
    hide IsCanonical;
    hide LaunchedFor;
    hide Hyphenated;
    hide SameHash;
    var k := s.task;
    if Admission(k.token, Hyphenated(d), k.request, now).None? {
      var id := AdmittedTokenIsApproved(b, d, k.request, k.token, now);
      hide Admission;
      assert Permits(b.db, d, A.StepAdmit(s, Hyphenated(d), now).value.task.launch, id);
    }
  }

  lemma SpendKeepsAgent(b: B.State, launches: seq<Launched>, d: Uuid, s: A.State)
    requires AgentOk(b, launches, d, s) && A.StepSpend(s).Some?
    ensures AgentOk(b, launches, d, A.StepSpend(s).value)
  {
    hide IsCanonical;
    hide LaunchedFor;
    var l := s.task.launch;
    if Spend(l.token, l.hash, s.ledger).0.Valid? {
      var id: Uuid :| Permits(b.db, d, l, id);
      assert Authorized(b.db, d, l, id);
      hide Permits;
      hide Authorized;
      assert LedgerHolds(launches, d, s.ledger);
      assert NotLaunched(launches, d, l.token.nonce);
    }
  }

  lemma SubmitKeepsAgent(b: B.State, launches: seq<Launched>, d: Uuid, s: A.State, request: string, path: string)
    requires AgentOk(b, launches, d, s) && IsCanonical(path)
    ensures AgentOk(b, launches, d, s.(requests := s.requests[request := A.Tracked(path, A.Pending)]))
  {
    hide Permits;
    hide Authorized;
    hide IsCanonical;
    hide LaunchedFor;
  }

  lemma RehashKeepsAgent(b: B.State, launches: seq<Launched>, d: Uuid, s: A.State, path: string, hash: string)
    requires AgentOk(b, launches, d, s) && s.task.Handling? && (IsCanonical(s.task.path) ==> path == s.task.path)
    ensures AgentOk(b, launches, d, s.(task := A.Hashed(s.task.request, s.task.path, path, hash, s.task.token)))
  {
    hide Permits;
    hide Authorized;
    hide IsCanonical;
    hide LaunchedFor;
  }

  /** Ending a task unsuccessfully, or a process that was launched. */
  lemma EndKeepsAgent(b: B.State, launches: seq<Launched>, d: Uuid, s: A.State, task: A.Task)
    requires AgentOk(b, launches, d, s)
    requires task.Idle? || (task.Ran? && (task.success ==> LaunchedFor(launches, d, task.request)))
    ensures AgentOk(b, launches, d, s.(task := task))
    ensures AgentOk(b, launches, d, A.State(s.ledger, map[], A.Idle))
  {
    hide Permits;
    hide Authorized;
    hide IsCanonical;
    hide LaunchedFor;
  }

  lemma TaskWasLaunched(b: B.State, launches: seq<Launched>, d: Uuid, s: A.State)
    requires AgentOk(b, launches, d, s)
    ensures s.task.Running? ==> LaunchedFor(launches, d, s.task.request)
    ensures s.task.Ran? && s.task.success ==> LaunchedFor(launches, d, s.task.request)
  {
    hide LaunchedFor;
  }

  lemma AgentStepKeepsAgent(b: B.State, launches: seq<Launched>, d: Uuid, s: A.State, e: A.Event)
    requires Inv(b) && AgentOk(b, launches, d, s) && Deliverable(b.released, e)
    requires A.Next(s, Hyphenated(d), e).Some? && A.Next(s, Hyphenated(d), e).value.1.None?
    ensures AgentOk(b, launches, d, A.Next(s, Hyphenated(d), e).value.0)
  {
    TaskWasLaunched(b, launches, d, s);
    hide Inv;
    hide AgentOk;
    hide LaunchedFor;
    hide IsCanonical;
    hide A.StepDeliver;
    hide A.StepAdmit;
    hide A.StepSpend;
    hide A.CheckPath;
    match e
    case Submit(request, raw, drive, onDisk) =>
      CheckedPathIsTheTrackedPath(raw, drive, onDisk);
      SubmitKeepsAgent(b, launches, d, s, request, A.CheckPath(raw, drive, onDisk).value);
    case SubmitFailed(request) => StatusKeepsAgent(b, launches, d, s, request, A.Failed);
    case Deliver(decision) => DeliverKeepsAgent(b, launches, d, s, decision);
    case Rehash(drive, onDisk, hash) =>
      var path := A.CheckPath(s.task.path, drive, onDisk);
      if path.Some? {
        CheckedPathIsTheTrackedPath(s.task.path, drive, onDisk);
        RehashKeepsAgent(b, launches, d, s, path.value, hash);
      } else {
        EndKeepsAgent(b, launches, d, s, A.Ran(s.task.request, false));
      }
    case Admit(now) => AdmitKeepsAgent(b, launches, d, s, now);
    case SpendNonce => SpendKeepsAgent(b, launches, d, s);
    case Start(started) => EndKeepsAgent(b, launches, d, s, A.Ran(s.task.launch.request, false));
    case Exit(success) => EndKeepsAgent(b, launches, d, s, A.Ran(s.task.request, success));
    case Report =>
      var status := if s.task.success then A.Approved else A.Failed;
      StatusKeepsAgent(b, launches, d, s, s.task.request, status);
      EndKeepsAgent(b, launches, d, A.WithStatus(s, s.task.request, status), A.Idle);
    case FailCycle => EndKeepsAgent(b, launches, d, s, A.Idle);
    case Restart => EndKeepsAgent(b, launches, d, s, A.Idle);
  }

  lemma LaunchOfStep(s: A.State, device: string, e: A.Event)
    requires A.Next(s, device, e).Some? && A.Next(s, device, e).value.1.Some?
    ensures s.task.Cleared? && A.Next(s, device, e).value.1.value == s.task.launch
    ensures A.Next(s, device, e).value.0 == s.(task := A.Running(s.task.launch.request))
  {
  }

  lemma AgentStepKeepsWorldInv(w: World, d: Uuid, e: A.Event)
    requires WorldInv(w) && NextOfAgent(w, d, e).Some?
    ensures WorldInv(NextOfAgent(w, d, e).value)
  {
    hide Inv;
    hide AgentOk;
    hide LaunchesOk;
    var b, s, w' := w.backend, w.agents[d], NextOfAgent(w, d, e).value;
    var step := A.Next(s, Hyphenated(d), e).value;
    if step.1.None? {
      AgentStepKeepsAgent(b, w.launches, d, s, e);
    } else {
      LaunchOfStep(s, Hyphenated(d), e);
      StartKeepsAgent(b, w.launches, d, s);
      StartKeepsLaunches(b, w.launches, d, s);
      forall u | u in w.agents && u != d ensures AgentOk(b, w'.launches, u, w.agents[u]) {
        OtherAgentKept(b, w.launches, Launched(d, step.1.value), u, w.agents[u]);
      }
    }
  }

  lemma NextKeepsWorldInv(w: World, event: Event)
    requires WorldInv(w) && Next(w, event).Some?
    ensures WorldInv(Next(w, event).value)
  {
    hide WorldInv;
    hide NextOfAgent;
    match event
    case OfBackend(e) => BackendStepKeepsWorldInv(w, e);
    case OfAgent(d, e) => AgentStepKeepsWorldInv(w, d, e);
  }

  lemma InitialWorldInv(w: World)
    requires IsInitial(w)
    ensures WorldInv(w)
  {
    Safety.InitialInv();
  }

  lemma {:induction false} RunKeepsWorldInv(w: World, events: seq<Event>)
    requires WorldInv(w) && Run(w, events).Some?
    ensures WorldInv(Run(w, events).value)
    decreases |events|
  {
    hide WorldInv;
    hide Next;
    if |events| > 0 {
      var before := events[..|events| - 1];
      RunKeepsWorldInv(w, before);
      NextKeepsWorldInv(Run(w, before).value, events[|events| - 1]);
    }
  }
}
