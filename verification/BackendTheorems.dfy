/** What the invariant gives over every run of the backend: interleavings, races, aborts and all. */
module BackendTheorems {
  import opened Common
  import opened Timestamp
  import opened Backend
  import opened BackendInvariant
  import opened BackendSafety
  import Allowlist

  // ---------- every committed state ----------

  ghost predicate NoncesUnique(db: Db) {
    forall i: Uuid, j: Uuid ::
      i in db.approvals && j in db.approvals && db.approvals[i].nonce == db.approvals[j].nonce ==> i == j
  }

  /** Approvals belong to approved requests one to one, and reviewed_at is set exactly on decided requests. */
  lemma CommittedRowsAreConsistent(events: seq<Event>)
    requires Run(INITIAL, events).Some?
    ensures var db := Run(INITIAL, events).value.db;
            && db.approvals.Keys == (set id | id in db.requests && db.requests[id].status.Approved?)
            && (forall id :: id in db.approvals ==> Authorizes(id, db.requests[id], db.approvals[id]))
            && (forall id :: id in db.requests ==>
                  (db.requests[id].reviewedAt.Some? <==> !db.requests[id].status.Pending?))
            && NoncesUnique(db)
  {
    hide Authorizes;
    ReachableInv(events);
    var db := Run(INITIAL, events).value.db;
    forall id: Uuid
      ensures id in db.approvals ==> id in db.requests && Authorizes(id, db.requests[id], db.approvals[id])
      ensures id in db.requests ==> (id in db.approvals <==> db.requests[id].status.Approved?)
      ensures id in db.requests ==> (db.requests[id].reviewedAt.Some? <==> !db.requests[id].status.Pending?)
    {
      assert CellOk(id, CellOf(db, id));
    }
  }

  /** A poll shows a device its own decided requests only, with a token exactly for the approved ones. */
  lemma PollShowsOwnDecisions(events: seq<Event>, device: Uuid, since: Micros, d: Decision)
    requires Run(INITIAL, events).Some?
    requires d in Offered(Run(INITIAL, events).value.db, device, since)
    ensures var db := Run(INITIAL, events).value.db;
            && d.request in db.requests && db.requests[d.request].device == device
            && d.status == db.requests[d.request].status && !d.status.Pending?
            && (d.token.Some? <==> d.status.Approved?)
            && (d.token.Some? ==>
                  d.token.value.device == Hyphenated(device) && d.token.value.request == Hyphenated(d.request))
  {
    hide Authorizes;
    CommittedRowsAreConsistent(events);
    var db := Run(INITIAL, events).value.db;
    ReachableInv(events);
    assert CellOk(d.request, CellOf(db, d.request));
    if d.request in db.approvals {
      TokenNamesTheDevice(db, d.request);
    }
  }

  lemma TokenNamesTheDevice(db: Db, id: Uuid)
    requires CellOk(id, CellOf(db, id)) && id in db.approvals
    ensures id in db.requests && db.approvals[id].device == db.requests[id].device
  {
  }

  predicate IsApprovedBy(db: Db, id: Uuid, reviewer: Option<nat>, nonce: string) {
    && id in db.requests && id in db.approvals
    && db.requests[id].status.Approved? && db.requests[id].reviewedBy == reviewer && db.approvals[id].nonce == nonce
  }

  /** The fact an audit row records, read off the tables. */
  predicate IsFact(db: Db, a: AuditRow) {
    match a
    case Submitted(id, device, filename, sha256) =>
      && id in db.requests && db.requests[id].device == device
      && db.requests[id].filename == filename && db.requests[id].sha256 == sha256
    case ApprovedBy(id, admin, nonce) => IsApprovedBy(db, id, Some(admin), nonce)
    case AutoApproved(id, nonce) => IsApprovedBy(db, id, None, nonce)
    case DeniedBy(id, admin) =>
      id in db.requests && db.requests[id].status.Denied? && db.requests[id].reviewedBy == Some(admin)
    case Consumed(id, device) =>
      id in db.approvals && db.approvals[id].consumedAt.Some? && db.approvals[id].device == device
  }

  /** The audit log holds one row for each fact the tables show and no other row. */
  lemma AuditIsConserved(events: seq<Event>, a: AuditRow)
    requires Run(INITIAL, events).Some?
    ensures Run(INITIAL, events).value.db.audit[a] == if IsFact(Run(INITIAL, events).value.db, a) then 1 else 0
  {
    hide Authorizes;
    ReachableInv(events);
    var db := Run(INITIAL, events).value.db;
    assert AuditBalanced(db);
    assert db.audit[a] == Count(Due(CellOf(db, a.request), a));
  }

  // ---------- decisions are final ----------

  /** Everything of a request row but its status, reviewer and review time. */
  predicate SameSubmission(q: Request, r: Request) {
    r == q.(status := r.status, reviewedAt := r.reviewedAt, reviewedBy := r.reviewedBy)
  }

  /** From one committed state to a later one: what was submitted, what was decided and what was signed stay. */
  predicate Extends(db: Db, later: Db, id: Uuid) {
    && (id in db.requests ==> id in later.requests && SameSubmission(db.requests[id], later.requests[id]))
    && (id in db.requests && !db.requests[id].status.Pending? ==>
          id in later.requests && later.requests[id] == db.requests[id])
    && (id in db.approvals ==>
          id in later.approvals
          && later.approvals[id] == db.approvals[id].(consumedAt := later.approvals[id].consumedAt)
          && (db.approvals[id].consumedAt.Some? ==> later.approvals[id] == db.approvals[id]))
  }

  lemma DecidedRowIsHeldByNobody(s: State, t: nat, id: Uuid)
    requires Inv(s) && t in s.txns && id in s.db.requests && !s.db.requests[id].status.Pending?
    ensures id !in s.txns[t].work.requests
  {
    var x := s.txns[t];
    assert Fits(id, x.handler, x.phase, x.hit.Some?, CellOf(s.db, id), CellOf(x.work, id));
  }

  lemma OnlyCommitWrites(s: State, e: Event)
    requires Next(s, e).Some?
    ensures Next(s, e).value.db == s.db
         || (e.In? && e.statement.Commit? && e.t in s.txns && s.txns[e.t].phase.Ready?
             && Next(s, e).value.db == Merge(s.db, s.txns[e.t].work))
  {
    if e.In? && e.t in s.txns && !e.statement.Commit? {
      hide TransitionStatus;
      hide CreateRequest;
      hide CreateApproval;
      hide MarkConsumed;
      hide SignedPayload;
      hide Allowlist.IsFindMatchAnswer;
      assert Execute(s, e.t, e.statement).value.db == s.db;
    }
  }

  lemma CommitKeepsSubmission(db: Db, x: Txn, id: Uuid)
    requires TxnOk(db, x) && x.phase.Ready? && id in db.requests
    ensures SameSubmission(db.requests[id], Merge(db, x.work).requests[id])
  {
    hide Authorizes;
    assert Fits(id, x.handler, x.phase, x.hit.Some?, CellOf(db, id), CellOf(x.work, id));
  }

  lemma CommitExtends(s: State, t: nat, id: Uuid)
    requires Inv(s) && t in s.txns && s.txns[t].phase.Ready?
    ensures Extends(s.db, Merge(s.db, s.txns[t].work), id)
  {
    hide CellsOk;
    hide TxnOk;
    hide AuditBalanced;
    hide NoncesApart;
    var x := s.txns[t];
    if id in s.db.requests {
      CommitKeepsSubmission(s.db, x, id);
      if !s.db.requests[id].status.Pending? {
        DecidedRowIsHeldByNobody(s, t, id);
      }
    }
    if id in s.db.approvals {
      CommitKeepsSignatures(s.db, x, id);
    }
  }

  lemma NextExtends(s: State, e: Event, id: Uuid)
    requires Inv(s) && Next(s, e).Some?
    ensures Extends(s.db, Next(s, e).value.db, id)
  {
    hide Inv;
    OnlyCommitWrites(s, e);
    hide Next;
    if Next(s, e).value.db != s.db {
      CommitExtends(s, e.t, id);
    }
  }

  lemma {:induction false} RunExtends(s: State, events: seq<Event>, id: Uuid)
    requires Inv(s) && Run(s, events).Some?
    ensures Extends(s.db, Run(s, events).value.db, id)
    decreases |events|
  {
    hide Inv;
    hide Next;
    if events != [] {
      var before := events[..|events| - 1];
      RunExtends(s, before, id);
      RunKeepsInv(s, before);
      NextExtends(Run(s, before).value, events[|events| - 1], id);
    }
  }

  /**
   * Once a request has a committed decision, its status, reviewer and review time, and the token of
   * its approval, stay what they are in every continuation; and so does the time it was consumed.
   */
  lemma DecisionsAreFinal(before: seq<Event>, after: seq<Event>, id: Uuid)
    requires Run(INITIAL, before).Some? && Run(Run(INITIAL, before).value, after).Some?
    ensures Extends(Run(INITIAL, before).value.db, Run(Run(INITIAL, before).value, after).value.db, id)
  {
    ReachableInv(before);
    RunExtends(Run(INITIAL, before).value, after, id);
  }

  /** The event commits a transaction that decides this request. */
  predicate CommitsDecision(s: State, e: Event, id: Uuid) {
    && e.In? && e.statement.Commit? && e.t in s.txns && Next(s, e).Some?
    && id in s.txns[e.t].work.requests && !s.txns[e.t].work.requests[id].status.Pending?
  }

  lemma {:induction false} RunComposes(s: State, first: seq<Event>, second: seq<Event>)
    requires Run(s, first).Some?
    ensures Run(s, first + second) == Run(Run(s, first).value, second)
    decreases |second|
  {
    hide Next;
    if second == [] {
      assert first + second == first;
    } else {
      var last := |second| - 1;
      RunComposes(s, first, second[..last]);
      assert (first + second)[..|first| + last] == first + second[..last];
    }
  }

  /** What event `i` of a run leaves is extended by whatever comes after it. */
  lemma LaterExtends(events: seq<Event>, i: nat, j: nat, id: Uuid)
    requires i < j <= |events| && Run(INITIAL, events[..j]).Some?
    ensures Run(INITIAL, events[..i]).Some? && Next(Run(INITIAL, events[..i]).value, events[i]).Some?
    ensures Extends(Next(Run(INITIAL, events[..i]).value, events[i]).value.db, Run(INITIAL, events[..j]).value.db, id)
  {
    hide Next;
    var first, middle := events[..i + 1], events[i + 1..j];
    assert events[..j][..i + 1] == first && first[..i] == events[..i];
    PrefixRuns(events[..j], i + 1);
    PrefixRuns(first, i);
    assert events[..j] == first + middle;
    RunComposes(INITIAL, first, middle);
    ReachableInv(first);
    RunExtends(Run(INITIAL, first).value, middle, id);
  }

  /**
   * Of all approve, deny, expiry and auto-approval transactions of a run, however they interleave, at
   * most one commits a decision on any one request.
   */
  lemma AtMostOneDecisionCommits(events: seq<Event>, i: nat, j: nat, id: Uuid)
    requires i < j < |events|
    requires Run(INITIAL, events[..i]).Some? && CommitsDecision(Run(INITIAL, events[..i]).value, events[i], id)
    requires Run(INITIAL, events[..j]).Some?
    ensures !CommitsDecision(Run(INITIAL, events[..j]).value, events[j], id)
  {
    var b := Run(INITIAL, events[..j]).value;
    LaterExtends(events, i, j, id);
    ReachableInv(events[..j]);
    if events[j].In? && events[j].t in b.txns {
      DecidedRowIsHeldByNobody(b, events[j].t, id);
    }
  }

  /** The event commits a transaction that marks this approval consumed. */
  predicate CommitsConsumption(s: State, e: Event, id: Uuid) {
    && e.In? && e.statement.Commit? && e.t in s.txns && Next(s, e).Some?
    && id in s.txns[e.t].work.approvals && s.txns[e.t].work.approvals[id].consumedAt.Some?
  }

  lemma ConsumedApprovalIsClaimedByNobody(s: State, t: nat, id: Uuid)
    requires Inv(s) && t in s.txns && s.txns[t].phase.Ready?
    requires id in s.db.approvals && s.db.approvals[id].consumedAt.Some?
    ensures id in s.txns[t].work.approvals ==> s.txns[t].work.approvals[id].consumedAt.None?
  {
    hide Authorizes;
    var x := s.txns[t];
    assert CellOk(id, CellOf(s.db, id));
    assert Fits(id, x.handler, x.phase, x.hit.Some?, CellOf(s.db, id), CellOf(x.work, id));
  }

  /** Of all consumed callbacks of a run, however they interleave, at most one commits for any one approval. */
  lemma AtMostOneConsumptionCommits(events: seq<Event>, i: nat, j: nat, id: Uuid)
    requires i < j < |events|
    requires Run(INITIAL, events[..i]).Some? && CommitsConsumption(Run(INITIAL, events[..i]).value, events[i], id)
    requires Run(INITIAL, events[..j]).Some?
    ensures !CommitsConsumption(Run(INITIAL, events[..j]).value, events[j], id)
  {
    var b := Run(INITIAL, events[..j]).value;
    LaterExtends(events, i, j, id);
    ReachableInv(events[..j]);
    if events[j].In? && events[j].t in b.txns && b.txns[events[j].t].phase.Ready? {
      ConsumedApprovalIsClaimedByNobody(b, events[j].t, id);
    }
  }

  /** A later poll with the same arguments offers every decision of an earlier one, token and all. */
  lemma PollsOnlyGrow(before: seq<Event>, after: seq<Event>, device: Uuid, since: Micros)
    requires Run(INITIAL, before).Some? && Run(Run(INITIAL, before).value, after).Some?
    ensures Offered(Run(INITIAL, before).value.db, device, since)
         <= Offered(Run(Run(INITIAL, before).value, after).value.db, device, since)
  {
    var s := Run(INITIAL, before).value;
    var later := Run(s, after).value;
    ReachableInv(before);
    RunKeepsInv(s, after);
    forall d | d in Offered(s.db, device, since) ensures d in Offered(later.db, device, since) {
      RunExtends(s, after, d.request);
      DecisionKept(s.db, later.db, d.request);
      assert IsOffered(later.db, device, since, d.request);
    }
  }

  /** Some decision of a poll answer is about this request. */
  predicate Tells(db: Db, device: Uuid, since: Micros, id: Uuid) {
    exists d :: d in Offered(db, device, since) && d.request == id
  }

  /**
   * Whether a committed decision is offered is settled for good: its own device hears of it, at any
   * later time, exactly with a watermark that is not past its review time. A watermark moved past it
   * loses it for ever.
   */
  lemma OfferedForEverOrNever(before: seq<Event>, after: seq<Event>, device: Uuid, since: Micros, id: Uuid)
    requires Run(INITIAL, before).Some? && Run(Run(INITIAL, before).value, after).Some?
    requires var db := Run(INITIAL, before).value.db; id in db.requests && db.requests[id].reviewedAt.Some?
    ensures var q, later := Run(INITIAL, before).value.db.requests[id], Run(Run(INITIAL, before).value, after).value.db;
            Tells(later, device, since, id) <==> (q.device == device && since <= q.reviewedAt.value)
  {
    var db := Run(INITIAL, before).value.db;
    var later := Run(Run(INITIAL, before).value, after).value.db;
    CommittedRowsAreConsistent(before);
    DecisionsAreFinal(before, after, id);
    if IsOffered(later, device, since, id) {
      assert DecisionOf(later, id) in Offered(later, device, since);
    }
  }

  lemma DecisionKept(db: Db, later: Db, id: Uuid)
    requires CellsOk(db) && CellsOk(later) && id in db.requests && !db.requests[id].status.Pending?
    requires Extends(db, later, id)
    ensures id in later.requests && DecisionOf(later, id) == DecisionOf(db, id)
  {
    hide Authorizes;
    assert CellOk(id, CellOf(db, id)) && CellOk(id, CellOf(later, id));
  }

  // ---------- auto-approval ----------

  lemma {:induction false} PrefixRuns(events: seq<Event>, k: nat)
    requires k <= |events| && Run(INITIAL, events).Some?
    ensures Run(INITIAL, events[..k]).Some?
    decreases |events|
  {
    hide Next;
    if k == |events| {
      assert events[..k] == events;
    } else {
      var last := |events| - 1;
      PrefixRuns(events[..last], k);
      assert events[..last][..k] == events[..k];
    }
  }

  /** The state just before event `k` of a run. */
  function StateAt(events: seq<Event>, k: nat): State
    requires k <= |events| && Run(INITIAL, events).Some?
  {
    PrefixRuns(events, k);
    Run(INITIAL, events[..k]).value
  }

  /** Event `k` is the allowlist look-up of the transaction that is in flight as `t` from then to the end. */
  ghost predicate IsLookup(events: seq<Event>, t: nat, k: nat)
    requires Run(INITIAL, events).Some?
  {
    && k < |events| && events[k].In? && events[k].t == t && events[k].statement.AutoDecide?
    && forall j :: k <= j <= |events| ==> t in StateAt(events, j).txns
  }

  /** That look-up found an entry exactly if `found`. */
  ghost predicate WasLookedUp(events: seq<Event>, t: nat, b: Submission, found: bool)
    requires Run(INITIAL, events).Some?
  {
    exists k: nat :: IsLookup(events, t, k) && (found <==> AllowlistMatches(StateAt(events, k), b))
  }

  /** A submission on the agent route is past its look-up. */
  predicate IsPastLookup(x: Txn) {
    && x.handler.Submit? && x.handler.body.agentRoute
    && (x.phase.Decided? || x.phase.Signed? || x.phase.Issued? || x.phase.Ready?)
  }

  lemma StepKeepsHit(s: State, t: nat, e: Event)
    requires t in s.txns && Next(s, e).Some? && t in Next(s, e).value.txns
    requires s.txns[t].handler.Submit?
    requires !s.txns[t].phase.Logged? && !s.txns[t].phase.Begun? && !s.txns[t].phase.Inserted?
    ensures var x, x' := s.txns[t], Next(s, e).value.txns[t];
            x'.hit == x.hit && x'.handler == x.handler
            && !x'.phase.Logged? && !x'.phase.Begun? && !x'.phase.Inserted?
  {
    if e.In? && e.t == t {
      hide TransitionStatus;
      hide CreateRequest;
      hide CreateApproval;
      hide MarkConsumed;
      hide SignedPayload;
    }
  }

  /** Event `k` began the call that is in flight as `t` from then to the end, on the group its device had then. */
  ghost predicate IsBeginning(events: seq<Event>, t: nat, b: Submission, k: nat)
    requires Run(INITIAL, events).Some?
  {
    && k < |events| && events[k] == Begin(t, Submit(b))
    && b.deviceGroup == Allowlist.GroupOf(StateAt(events, k).allow, b.device)
    && forall j :: k < j <= |events| ==> t in StateAt(events, j).txns
  }

  ghost predicate HasBegun(events: seq<Event>, t: nat, b: Submission)
    requires Run(INITIAL, events).Some?
  {
    exists k: nat :: IsBeginning(events, t, b, k)
  }

  lemma HandlerStays(s: State, e: Event, t: nat)
    requires Next(s, e).Some? && t in s.txns && t in Next(s, e).value.txns
    ensures Next(s, e).value.txns[t].handler == s.txns[t].handler
  {
    hide TransitionStatus;
    hide CreateRequest;
    hide CreateApproval;
    hide MarkConsumed;
    hide SignedPayload;
    hide Allowlist.IsFindMatchAnswer;
  }

  lemma OnlyBeginBegins(s: State, e: Event, t: nat)
    requires Next(s, e).Some? && t !in s.txns && t in Next(s, e).value.txns && Next(s, e).value.txns[t].handler.Submit?
    ensures var b := Next(s, e).value.txns[t].handler.body;
            e == Begin(t, Submit(b)) && b.deviceGroup == Allowlist.GroupOf(s.allow, b.device)
  {
    hide TransitionStatus;
    hide CreateRequest;
    hide CreateApproval;
    hide MarkConsumed;
    hide SignedPayload;
    hide Allowlist.IsFindMatchAnswer;
  }

  lemma BeginningStays(before: seq<Event>, e: Event, t: nat, b: Submission)
    requires Run(INITIAL, before + [e]).Some? && Run(INITIAL, before).Some?
    requires HasBegun(before, t, b) && t in Run(INITIAL, before + [e]).value.txns
    ensures HasBegun(before + [e], t, b)
  {
    hide StateAt;
    hide Run;
    var events := before + [e];
    var k: nat :| IsBeginning(before, t, b, k);
    forall j: nat | j <= |before| ensures StateAt(events, j) == StateAt(before, j) {
      SamePrefix(before, e, j);
    }
    StateAtEnd(events);
    assert IsBeginning(events, t, b, k);
  }

  lemma BeginsNow(before: seq<Event>, e: Event, t: nat, b: Submission)
    requires Run(INITIAL, before + [e]).Some? && Run(INITIAL, before).Some? && e == Begin(t, Submit(b))
    requires b.deviceGroup == Allowlist.GroupOf(Run(INITIAL, before).value.allow, b.device)
    requires t in Run(INITIAL, before + [e]).value.txns
    ensures HasBegun(before + [e], t, b)
  {
    hide Next;
    var events := before + [e];
    assert events[..|before|] == before && events[..|events|] == events;
    assert IsBeginning(events, t, b, |before|);
  }

  /** Every submission in flight carries the group that its device had when its call began. */
  lemma {:induction false} SubmissionReadItsGroup(events: seq<Event>, t: nat)
    requires Run(INITIAL, events).Some?
    requires t in Run(INITIAL, events).value.txns && Run(INITIAL, events).value.txns[t].handler.Submit?
    ensures HasBegun(events, t, Run(INITIAL, events).value.txns[t].handler.body)
    decreases |events|
  {
    hide Next;
    hide HasBegun;
    if |events| > 0 {
      var before, e := events[..|events| - 1], events[|events| - 1];
      var s := Run(INITIAL, before).value;
      assert events == before + [e];
      if t in s.txns {
        HandlerStays(s, e, t);
        SubmissionReadItsGroup(before, t);
        BeginningStays(before, e, t, s.txns[t].handler.body);
      } else {
        OnlyBeginBegins(s, e, t);
        BeginsNow(before, e, t, Run(INITIAL, events).value.txns[t].handler.body);
      }
    }
  }

  /** Only the look-up leads past the look-up. */
  lemma OnlyLookupLeadsPast(s: State, e: Event, t: nat)
    requires Next(s, e).Some? && t in Next(s, e).value.txns && IsPastLookup(Next(s, e).value.txns[t])
    requires t in s.txns ==> !IsPastLookup(s.txns[t])
    ensures e.In? && e.t == t && e.statement.AutoDecide? && t in s.txns && s.txns[t].handler.Submit?
    ensures StepAutoDecide(s, t, e.statement.now, e.statement.hit) == Next(s, e)
  {
    hide TransitionStatus;
    hide CreateRequest;
    hide CreateApproval;
    hide MarkConsumed;
    hide SignedPayload;
    hide Allowlist.IsFindMatchAnswer;
  }

  /** Once past its look-up a submission stays past it, with what it found. */
  lemma PastLookupStays(s: State, e: Event, t: nat)
    requires Next(s, e).Some? && t in Next(s, e).value.txns && IsPastLookup(Next(s, e).value.txns[t])
    requires t in s.txns && IsPastLookup(s.txns[t])
    ensures Next(s, e).value.txns[t].hit == s.txns[t].hit && Next(s, e).value.txns[t].handler == s.txns[t].handler
  {
    hide Next;
    StepKeepsHit(s, t, e);
  }

  lemma LookupStays(before: seq<Event>, e: Event, t: nat, b: Submission, found: bool)
    requires Run(INITIAL, before + [e]).Some? && Run(INITIAL, before).Some?
    requires WasLookedUp(before, t, b, found) && t in Run(INITIAL, before + [e]).value.txns
    ensures WasLookedUp(before + [e], t, b, found)
  {
    hide AllowlistMatches;
    hide StateAt;
    hide Run;
    var events := before + [e];
    var k: nat :| IsLookup(before, t, k) && (found <==> AllowlistMatches(StateAt(before, k), b));
    forall j: nat | j <= |before| ensures StateAt(events, j) == StateAt(before, j) {
      SamePrefix(before, e, j);
    }
    StateAtEnd(events);
    assert IsLookup(events, t, k);
  }

  lemma SamePrefix(before: seq<Event>, e: Event, j: nat)
    requires Run(INITIAL, before + [e]).Some? && Run(INITIAL, before).Some? && j <= |before|
    ensures StateAt(before + [e], j) == StateAt(before, j)
  {
    hide Next;
    assert (before + [e])[..j] == before[..j];
  }

  lemma StateAtEnd(events: seq<Event>)
    requires Run(INITIAL, events).Some?
    ensures StateAt(events, |events|) == Run(INITIAL, events).value
  {
    hide Next;
    assert events[..|events|] == events;
  }

  lemma LookupAtLast(before: seq<Event>, e: Event, t: nat, b: Submission, found: bool)
    requires Run(INITIAL, before + [e]).Some? && Run(INITIAL, before).Some?
    requires e.In? && e.t == t && e.statement.AutoDecide?
    requires t in Run(INITIAL, before).value.txns && t in Run(INITIAL, before + [e]).value.txns
    requires found <==> AllowlistMatches(Run(INITIAL, before).value, b)
    ensures WasLookedUp(before + [e], t, b, found)
  {
    hide AllowlistMatches;
    var events := before + [e];
    assert events[..|before|] == before && events[..|events|] == events;
    assert IsLookup(events, t, |before|);
  }

  lemma {:induction false} PastLookupWasLookedUp(events: seq<Event>, t: nat)
    requires Run(INITIAL, events).Some?
    requires t in Run(INITIAL, events).value.txns && IsPastLookup(Run(INITIAL, events).value.txns[t])
    ensures var x := Run(INITIAL, events).value.txns[t]; WasLookedUp(events, t, x.handler.body, x.hit.Some?)
    decreases |events|
  {
    hide Next;
    hide WasLookedUp;
    hide AllowlistMatches;
    hide StepAutoDecide;
    if |events| > 0 {
      var before, e := events[..|events| - 1], events[|events| - 1];
      var s := Run(INITIAL, before).value;
      assert events == before + [e];
      if t in s.txns && IsPastLookup(s.txns[t]) {
        PastLookupStays(s, e, t);
        PastLookupWasLookedUp(before, t);
        LookupStays(before, e, t, s.txns[t].handler.body, s.txns[t].hit.Some?);
      } else {
        OnlyLookupLeadsPast(s, e, t);
        ReachableInv(before);
        HitIff(s, t, e.statement.now, e.statement.hit);
        LookupAtLast(before, e, t, s.txns[t].handler.body, Run(INITIAL, events).value.txns[t].hit.Some?);
      }
    }
  }

  /**
   * Whatever the run, a submission by the agent that commits was looked up in the allowlist by its own
   * transaction, and commits as APPROVED exactly when its signature was trusted, it named a publisher,
   * and a global or same-group entry matched in the state of that moment; otherwise it commits as
   * PENDING, and so does every submission on the other route.
   */
  lemma BornApprovedIff(events: seq<Event>, t: nat)
    requires Run(INITIAL, events).Some? && t in Run(INITIAL, events).value.txns
    requires Run(INITIAL, events).value.txns[t].handler.Submit? && Next(Run(INITIAL, events).value, In(t, Commit)).Some?
    ensures var b := Run(INITIAL, events).value.txns[t].handler.body;
            var db := Next(Run(INITIAL, events).value, In(t, Commit)).value.db;
            && b.id in db.requests
            && (db.requests[b.id].status.Approved? || db.requests[b.id].status.Pending?)
            && (b.agentRoute ==> WasLookedUp(events, t, b, db.requests[b.id].status.Approved?))
            && (!b.agentRoute ==> db.requests[b.id].status.Pending?)
  {
    hide WasLookedUp;
    var s := Run(INITIAL, events).value;
    ReachableInv(events);
    if s.txns[t].handler.body.agentRoute {
      PastLookupWasLookedUp(events, t);
    }
    ReadySubmission(s, t);
    hide Inv;
    hide Run;
  }

  /** Trusted, with a publisher, and covered by an entry for every device or for its device's group. */
  predicate AllowlistMatches(s: State, b: Submission) {
    && b.trust.Trusted? && b.publisher.Some?
    && exists id :: id in s.allow.entries
                    && Allowlist.Covers(s.allow.entries[id], b.deviceGroup, b.publisher.value, b.filename)
  }

  lemma SomeMatchIff(s: State, b: Submission)
    requires b.publisher.Some?
    ensures Allowlist.MatchingIds(s.allow, b.deviceGroup, b.publisher.value, b.filename) != {}
       <==> exists id :: id in s.allow.entries
                         && Allowlist.Covers(s.allow.entries[id], b.deviceGroup, b.publisher.value, b.filename)
  {
    hide Allowlist.MatchingIds;
    hide Allowlist.Covers;
    forall id ensures id in Allowlist.MatchingIds(s.allow, b.deviceGroup, b.publisher.value, b.filename)
                 <==> id in s.allow.entries
                      && Allowlist.Covers(s.allow.entries[id], b.deviceGroup, b.publisher.value, b.filename)
    {
      Allowlist.MatchesIff(s.allow, b.deviceGroup, b.publisher.value, b.filename, id);
    }
  }

  lemma HitIff(s: State, t: nat, now: Micros, hit: Option<nat>)
    requires Inv(s) && t in s.txns && StepAutoDecide(s, t, now, hit).Some?
    ensures t in StepAutoDecide(s, t, now, hit).value.txns
    ensures var b, x' := s.txns[t].handler.body, StepAutoDecide(s, t, now, hit).value.txns[t];
            && x'.handler == s.txns[t].handler && (x'.phase.Ready? || x'.phase.Decided?)
            && (x'.hit.Some? <==> AllowlistMatches(s, b))
  {
    hide Authorizes;
    var x := s.txns[t];
    var id := x.handler.body.id;
    if x.handler.body.publisher.Some? {
      SomeMatchIff(s, x.handler.body);
    }
    hide Allowlist.MatchingIds;
    hide Allowlist.Covers;
    assert Fits(id, x.handler, x.phase, x.hit.Some?, CellOf(s.db, id), CellOf(x.work, id));
  }

  lemma ReadySubmission(s: State, t: nat)
    requires Inv(s) && t in s.txns && s.txns[t].handler.Submit? && s.txns[t].phase.Ready?
    ensures var id := s.txns[t].handler.body.id;
            && id in s.txns[t].work.requests
            && (if s.txns[t].hit.Some? then s.txns[t].work.requests[id].status.Approved?
                else s.txns[t].work.requests[id].status.Pending?)
            && (s.txns[t].hit.Some? ==> s.txns[t].handler.body.agentRoute)
  {
    hide Authorizes;
    var x := s.txns[t];
    var id := x.handler.body.id;
    assert Fits(id, x.handler, x.phase, x.hit.Some?, CellOf(s.db, id), CellOf(x.work, id));
  }
}
