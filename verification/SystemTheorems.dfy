/** The safety of the protocol over every run of backend, network and restarting agents. */
module SystemTheorems {
  import opened Common
  import opened Wire
  import TokenValidation
  import opened BackendInvariant
  import opened System
  import B = Backend
  import Theorems = BackendTheorems
  import History = BackendHistory
  import A = Agent

  // ---------- launches ----------

  /**
   * Every process that was ever started had a committed approval for that device and request, whose
   * request is APPROVED, with the hash that was read from the file up to letter case, which had not
   * expired on the agent's clock when the token was checked; and it ran the path that was tracked.
   */
  lemma EveryLaunchIsAuthorized(start: World, events: seq<Event>, i: nat)
    requires IsInitial(start) && Run(start, events).Some? && i < |Run(start, events).value.launches|
    ensures IsAuthorized(Run(start, events).value.backend.db, Run(start, events).value.launches[i])
  {
    InitialWorldInv(start);
    RunKeepsWorldInv(start, events);
  }

  /** No request is ever launched twice, by one agent or by two, across redelivery, failures and restarts. */
  lemma EachRequestIsLaunchedAtMostOnce(start: World, events: seq<Event>, i: nat, j: nat)
    requires IsInitial(start) && Run(start, events).Some?
    requires i < j < |Run(start, events).value.launches|
    ensures Run(start, events).value.launches[i].launch.request != Run(start, events).value.launches[j].launch.request
  {
    InitialWorldInv(start);
    RunKeepsWorldInv(start, events);
    var w := Run(start, events).value;
    SameRequestSameNonce(w.backend.db, w.launches, i, j);
  }

  lemma SameRequestSameNonce(db: B.Db, launches: seq<Launched>, i: nat, j: nat)
    requires LaunchesOk(db, launches) && i < j < |launches|
    ensures launches[i].launch.request != launches[j].launch.request
  {
    var x, y := launches[i], launches[j];
    assert IsAuthorized(db, x) && IsAuthorized(db, y);
    var p: Uuid :| Authorized(db, x.agent, x.launch, p);
    var q: Uuid :| Authorized(db, y.agent, y.launch, q);
    if x.launch.request == y.launch.request {
      HyphenatedInjective(p, q);
    }
  }

  // ---------- who asked for it ----------

  /** The backend's share of a run. */
  function BackendSteps(events: seq<Event>): seq<B.Event> {
    if |events| == 0 then []
    else
      var last := events[|events| - 1];
      BackendSteps(events[..|events| - 1]) + if last.OfBackend? then [last.step] else []
  }

  lemma {:induction false} BackendRuns(start: World, events: seq<Event>)
    requires Run(start, events).Some?
    ensures B.Run(start.backend, BackendSteps(events)) == Some(Run(start, events).value.backend)
    decreases |events|
  {
    hide B.Next;
    hide A.Next;
    if |events| > 0 {
      var before, last := events[..|events| - 1], events[|events| - 1];
      BackendRuns(start, before);
      if last.OfBackend? {
        var steps := BackendSteps(before) + [last.step];
        assert steps[..|steps| - 1] == BackendSteps(before);
      } else {
        assert BackendSteps(events) == BackendSteps(before);
      }
    }
  }

  /** A device submitted this request with the hash of what was launched on it. */
  ghost predicate WasRequested(begun: set<B.Handler>, x: Launched, id: Uuid) {
    exists b: B.Submission ::
      B.Submit(b) in begun && b.id == id && b.device == x.agent && TokenValidation.SameHash(b.sha256, x.launch.hash)
  }

  /** An administrator called for its approval, or its agent had submitted it as trusted, with a publisher. */
  ghost predicate WasGranted(begun: set<B.Handler>, id: Uuid) {
    || (exists admin: nat :: B.Approve(id, admin) in begun)
    || (exists b: B.Submission ::
          B.Submit(b) in begun && b.id == id && b.agentRoute && b.trust.Trusted? && b.publisher.Some?)
  }

  /**
   * Every launch leads back to the calls that caused it: the same device submitted that request with
   * the hash of the launched file, and an administrator approved it or it was eligible for the allowlist.
   */
  lemma EveryLaunchWasAskedFor(start: World, events: seq<Event>, i: nat) returns (id: Uuid)
    requires IsInitial(start) && Run(start, events).Some? && i < |Run(start, events).value.launches|
    ensures var x, begun := Run(start, events).value.launches[i], History.Begun(BackendSteps(events));
            x.launch.request == Hyphenated(id) && WasRequested(begun, x, id) && WasGranted(begun, id)
  {
    var w := Run(start, events).value;
    var x := w.launches[i];
    EveryLaunchIsAuthorized(start, events, i);
    id :| Authorized(w.backend.db, x.agent, x.launch, id);
    BackendRuns(start, events);
    History.EveryRowIsTraceable(BackendSteps(events), id);
    TracedLaunch(w.backend.db, History.Begun(BackendSteps(events)), x, id);
  }

  lemma TracedLaunch(db: B.Db, begun: set<B.Handler>, x: Launched, id: Uuid)
    requires Authorized(db, x.agent, x.launch, id)
    requires History.WasSubmitted(begun, id, db.requests[id]) && History.WasDecided(begun, id, db.requests[id])
    ensures WasRequested(begun, x, id) && WasGranted(begun, id)
  {
    var q := db.requests[id];
    var b: B.Submission :| B.Submit(b) in begun && b.id == id && History.SubmittedAs(q, b);
    assert TokenValidation.SameHash(b.sha256, x.launch.hash);
    var h :| h in begun && History.Explains(h, id, q);
    if q.reviewedBy.Some? {
      assert B.Approve(id, q.reviewedBy.value) in begun;
    } else {
      assert B.Submit(h.body) in begun;
    }
  }

  // ---------- what the tray is shown ----------

  lemma ShownApprovedWasLaunched(start: World, events: seq<Event>, d: Uuid, request: string)
    requires IsInitial(start) && Run(start, events).Some?
    requires var w := Run(start, events).value;
             d in w.agents && request in w.agents[d].requests && w.agents[d].requests[request].status.Approved?
    ensures LaunchedFor(Run(start, events).value.launches, d, request)
  {
    InitialWorldInv(start);
    RunKeepsWorldInv(start, events);
    assert AgentOk(Run(start, events).value.backend, Run(start, events).value.launches, d,
                   Run(start, events).value.agents[d]);
  }

  /** Handling this decision leaves a shown Approved alone: it is about another request, or it stops short. */
  predicate LeavesApproved(s: A.State, device: string, request: string, d: A.Decision, m: A.Surroundings)
    requires request in s.requests
  {
    || d.request != request || !m.noted || d.status.Pending? || d.status.Failed?
    || (&& d.status.Approved? && d.token.Some? && A.CheckPath(s.requests[request].path, m.drive, m.onDisk).Some?
        && (!m.readable
            || TokenValidation.Validation(d.token.value, device, request, m.hash, m.now, s.ledger, m.fault).0.Threw?))
  }

  /**
   * Exactly when a local Approved survives a decision, of whatever status and token the network delivers:
   * every other one turns it into Denied, Expired or Failed, for the request's one nonce is spent.
   */
  lemma ApprovedSurvivesIff(w: World, d: Uuid, request: string, decision: A.Decision, m: A.Surroundings)
    requires WorldInv(w) && d in w.agents && Deliverable(w.backend.released, A.Deliver(decision))
    requires request in w.agents[d].requests && w.agents[d].requests[request].status.Approved?
    ensures var after := A.HandleDecision(w.agents[d], Hyphenated(d), decision, m).state;
            && request in after.requests
            && (after.requests[request].status.Approved?
                <==> LeavesApproved(w.agents[d], Hyphenated(d), request, decision, m))
  {
    hide WorldInv;
    hide Obtainable;
    hide Hyphenated;
    hide LeavesApproved;
    hide A.HandleDecision;
    hide TokenValidation.Validation;
    if decision.token.Some? {
      ShownIsNeverValidAgain(w, d, request, decision.token.value, m);
    }
    SpentApprovedSurvivesIff(w.agents[d], Hyphenated(d), request, decision, m);
  }

  lemma SpentApprovedSurvivesIff(s: A.State, device: string, request: string, d: A.Decision, m: A.Surroundings)
    requires request in s.requests && s.requests[request].status.Approved?
    requires d.token.Some? ==>
               !TokenValidation.Validation(d.token.value, device, request, m.hash, m.now, s.ledger, m.fault).0.Valid?
    ensures var after := A.HandleDecision(s, device, d, m).state;
            && request in after.requests
            && (after.requests[request].status.Approved? <==> LeavesApproved(s, device, request, d, m))
  {
    hide A.CheckPath;
    hide A.Execute;
    hide TokenValidation.Validation;
    if d.request in s.requests && d.token.Some? {
      ExecutionTouches(s, device, d.request, s.requests[d.request].path, d.token.value, m);
    }
  }

  /** Executing a token changes one status, and leaves it only when it stops short or launches. */
  lemma ExecutionTouches(
      s: A.State, device: string, request: string, path: string, token: WireToken, m: A.Surroundings)
    requires request in s.requests
    ensures var verdict := TokenValidation.Validation(token, device, request, m.hash, m.now, s.ledger, m.fault).0;
            var after := A.Execute(s, device, request, path, token, m).state;
            && after.requests.Keys == s.requests.Keys
            && (forall r :: r in s.requests && r != request ==> after.requests[r] == s.requests[r])
            && (A.CheckPath(path, m.drive, m.onDisk).Some? && (!m.readable || verdict.Threw?)
                ==> after.requests == s.requests)
            && (!verdict.Valid? && !(A.CheckPath(path, m.drive, m.onDisk).Some? && (!m.readable || verdict.Threw?))
                ==> after.requests[request].status.Failed?)
  {
    hide A.CheckPath;
    hide TokenValidation.Validation;
  }

  /** What a request shown as Approved was launched with is spent, and there is no other token for it. */
  lemma ShownIsNeverValidAgain(w: World, d: Uuid, request: string, token: WireToken, m: A.Surroundings)
    requires WorldInv(w) && d in w.agents && Obtainable(w.backend.released, token)
    requires request in w.agents[d].requests && w.agents[d].requests[request].status.Approved?
    ensures var ledger := w.agents[d].ledger;
            !TokenValidation.Validation(token, Hyphenated(d), request, m.hash, m.now, ledger, m.fault).0.Valid?
  {
    hide WorldInv;
    hide Obtainable;
    hide TokenValidation.Admission;
    hide Hyphenated;
    A.AdmissionIsNeverValid(token, Hyphenated(d), request, m.now);
    if TokenValidation.Admission(token, Hyphenated(d), request, m.now).None? {
      BackendOfWorld(w);
      var id := AdmittedTokenIsApproved(w.backend, d, request, token, m.now);
      LaunchedNonceIsSpent(w, d, request, id);
    }
  }

  lemma LaunchedNonceIsSpent(w: World, d: Uuid, request: string, id: Uuid)
    requires WorldInv(w) && d in w.agents && request == Hyphenated(id) && id in w.backend.db.approvals
    requires request in w.agents[d].requests && w.agents[d].requests[request].status.Approved?
    ensures w.backend.db.approvals[id].nonce in w.agents[d].ledger
  {
    hide Inv;
    hide Hyphenated;
    hide TaskOk;
    assert AgentOk(w.backend, w.launches, d, w.agents[d]);
    assert LaunchedFor(w.launches, d, request);
    var i :| 0 <= i < |w.launches| && w.launches[i].agent == d && w.launches[i].launch.request == request;
    var x := w.launches[i];
    assert IsAuthorized(w.backend.db, x);
    var p: Uuid :| Authorized(w.backend.db, x.agent, x.launch, p);
    HyphenatedInjective(p, id);
  }

  lemma {:induction false} RunExtends(w: World, events: seq<Event>, id: Uuid)
    requires WorldInv(w) && Run(w, events).Some?
    ensures Theorems.Extends(w.backend.db, Run(w, events).value.backend.db, id)
    decreases |events|
  {
    if |events| > 0 {
      var before := events[..|events| - 1];
      RunExtends(w, before, id);
      RunKeepsWorldInv(w, before);
      var mid, event := Run(w, before).value, events[|events| - 1];
      hide WorldInv;
      hide AgentOk;
      hide LaunchesOk;
      if event.OfBackend? {
        BackendOfWorld(mid);
        Theorems.NextExtends(mid.backend, event.step, id);
      } else {
        AgentLeavesBackend(mid, event);
      }
    }
  }

  lemma BackendOfWorld(w: World)
    requires WorldInv(w)
    ensures Inv(w.backend)
  {
  }

  lemma AgentLeavesBackend(w: World, event: Event)
    requires event.OfAgent? && Next(w, event).Some?
    ensures Next(w, event).value.backend == w.backend
  {
  }

  /**
   * A request that was denied or has expired is never launched, and never shown as approved, from
   * then on or before, under whatever text of its id an agent tracks it.
   */
  lemma RefusedRequestNeverRuns(start: World, before: seq<Event>, after: seq<Event>, id: Uuid)
    requires IsInitial(start) && Run(start, before).Some? && Run(Run(start, before).value, after).Some?
    requires var db := Run(start, before).value.backend.db;
             id in db.requests && (db.requests[id].status.Denied? || db.requests[id].status.Expired?)
    ensures var later := Run(Run(start, before).value, after).value;
            && (forall i :: 0 <= i < |later.launches| ==> ParseUuid(later.launches[i].launch.request) != Some(id))
            && (forall d, k :: d in later.agents && k in later.agents[d].requests && ParseUuid(k) == Some(id)
                  ==> !later.agents[d].requests[k].status.Approved?)
  {
    var w := Run(start, before).value;
    var later := Run(w, after).value;
    InitialWorldInv(start);
    RunKeepsWorldInv(start, before);
    RunKeepsWorldInv(w, after);
    RunExtends(w, after, id);
    hide ParseUuid;
    hide WorldInv;
    hide Run;
    forall i | 0 <= i < |later.launches| ensures ParseUuid(later.launches[i].launch.request) != Some(id) {
      RefusedIsNotLaunched(later, id, i);
    }
    forall d, k | d in later.agents && k in later.agents[d].requests && ParseUuid(k) == Some(id)
      ensures !later.agents[d].requests[k].status.Approved?
    {
      if later.agents[d].requests[k].status.Approved? {
        ShownIsLaunched(later, d, k);
      }
    }
  }

  lemma RefusedIsNotLaunched(w: World, id: Uuid, i: nat)
    requires WorldInv(w) && i < |w.launches| && id in w.backend.db.requests
    requires w.backend.db.requests[id].status.Denied? || w.backend.db.requests[id].status.Expired?
    ensures ParseUuid(w.launches[i].launch.request) != Some(id)
  {
    hide Hyphenated;
    hide ParseUuid;
    var x := w.launches[i];
    assert IsAuthorized(w.backend.db, x);
    var p: Uuid :| Authorized(w.backend.db, x.agent, x.launch, p);
    ParseUndoesBothTexts(p);
  }

  lemma ShownIsLaunched(w: World, d: Uuid, request: string)
    requires WorldInv(w) && d in w.agents && request in w.agents[d].requests
    requires w.agents[d].requests[request].status.Approved?
    ensures exists i :: 0 <= i < |w.launches| && w.launches[i].launch.request == request
  {
    assert AgentOk(w.backend, w.launches, d, w.agents[d]);
    assert LaunchedFor(w.launches, d, request);
  }

  // ---------- the polling worker inside the system ----------

  /** Lets agent `d` take these steps, one after the other. */
  function WithRun(w: World, d: Uuid, s: A.State, launches: seq<A.Launch>): World {
    w.(agents := w.agents[d := s],
       launches := w.launches + seq(|launches|, i requires 0 <= i < |launches| => Launched(d, launches[i])))
  }

  lemma {:induction false} AgentRunKeepsWorldInv(w: World, d: Uuid, events: seq<A.Event>)
    requires WorldInv(w) && d in w.agents && A.Run(w.agents[d], Hyphenated(d), events).Some?
    requires forall e :: e in events ==> Deliverable(w.backend.released, e)
    ensures var (s, launches) := A.Run(w.agents[d], Hyphenated(d), events).value;
            WorldInv(WithRun(w, d, s, launches))
    decreases |events|
  {
    hide WorldInv;
    hide A.Next;
    hide Deliverable;
    var (s, launches) := A.Run(w.agents[d], Hyphenated(d), events).value;
    if |events| == 0 {
      assert w.agents[d := s] == w.agents && WithRun(w, d, s, launches).launches == w.launches;
    } else {
      var w1 := NextOfAgent(w, d, events[0]).value;
      AgentStepKeepsWorldInv(w, d, events[0]);
      AgentRunKeepsWorldInv(w1, d, events[1..]);
      var rest := A.Run(w1.agents[d], Hyphenated(d), events[1..]).value.1;
      assert w1.agents[d := s] == w.agents[d := s];
      assert WithRun(w1, d, s, rest).launches == WithRun(w, d, s, launches).launches;
    }
  }

  lemma OnlyDeliversTheDecision(s: A.State, device: string, decision: A.Decision, m: A.Surroundings)
    ensures forall e :: e in A.StepsOf(s, device, decision, m) && e.Deliver? ==> e.decision == decision
  {
    hide A.CheckPath;
    hide TokenValidation.Admission;
    hide TokenValidation.Spend;
  }

  /**
   * `ApprovalPollingWorker.Handle` in one go, on any decision the network can deliver, keeps the
   * invariant behind all of the above.
   */
  lemma HandlingKeepsWorldInv(w: World, d: Uuid, decision: A.Decision, m: A.Surroundings)
    requires WorldInv(w) && d in w.agents && w.agents[d].task.Idle?
    requires Deliverable(w.backend.released, A.Deliver(decision))
    ensures var h := A.HandleDecision(w.agents[d], Hyphenated(d), decision, m);
            WorldInv(WithRun(w, d, h.state, h.launches))
  {
    hide WorldInv;
    OnlyDeliversTheDecision(w.agents[d], Hyphenated(d), decision, m);
    A.HandlingIsARun(w.agents[d], Hyphenated(d), decision, m);
    hide A.HandleDecision;
    hide A.StepsOf;
    AgentRunKeepsWorldInv(w, d, A.StepsOf(w.agents[d], Hyphenated(d), decision, m));
  }

  // ---------- which request ids can ever be launched ----------

  predicate Has32DigitKeys(s: A.State) {
    && (forall k :: k in s.requests ==> |k| == 32)
    && match s.task
       case Idle => true
       case Handling(request, _, _) => |request| == 32
       case Hashed(request, _, _, _, _) => |request| == 32
       case Admitted(l) => |l.request| == 32
       case Cleared(l) => |l.request| == 32
       case Running(request) => |request| == 32
       case Ran(request, _) => |request| == 32
  }

  /** The agent's own submissions name a request by the 32 digits of its id. */
  predicate SubmitsDigits32(event: Event) {
    event.OfAgent? && event.action.Submit? ==> |event.action.request| == 32
  }

  lemma StepKeepsKeys(s: A.State, device: string, e: A.Event)
    requires Has32DigitKeys(s) && (e.Submit? ==> |e.request| == 32) && A.Next(s, device, e).Some?
    ensures Has32DigitKeys(A.Next(s, device, e).value.0)
  {
    hide A.CheckPath;
    hide TokenValidation.Admission;
    hide TokenValidation.Spend;
  }

  /**
   * As long as agents name their requests by 32 digits, and approvals name them in hyphenated form, no
   * approval ever leads to a launch.
   */
  lemma {:induction false} Digits32KeysNeverLaunch(start: World, events: seq<Event>)
    requires IsInitial(start) && Run(start, events).Some?
    requires forall e :: e in events ==> SubmitsDigits32(e)
    ensures Run(start, events).value.launches == []
    ensures forall d :: d in Run(start, events).value.agents ==> Has32DigitKeys(Run(start, events).value.agents[d])
    decreases |events|
  {
    if |events| > 0 {
      var before, event := events[..|events| - 1], events[|events| - 1];
      assert event in events;
      Digits32KeysNeverLaunch(start, before);
      InitialWorldInv(start);
      RunKeepsWorldInv(start, before);
      KeysStep(Run(start, before).value, event);
    }
  }

  lemma KeysStep(w: World, event: Event)
    requires WorldInv(w) && w.launches == [] && SubmitsDigits32(event) && Next(w, event).Some?
    requires forall d :: d in w.agents ==> Has32DigitKeys(w.agents[d])
    ensures Next(w, event).value.launches == []
    ensures forall d :: d in Next(w, event).value.agents ==> Has32DigitKeys(Next(w, event).value.agents[d])
  {
    if event.OfAgent? {
      var d := event.agent;
      StepKeepsKeys(w.agents[d], Hyphenated(d), event.action);
      if A.Next(w.agents[d], Hyphenated(d), event.action).value.1.Some? {
        LaunchOfStep(w.agents[d], Hyphenated(d), event.action);
        ClearedIsHyphenated(w, d);
      }
      hide Has32DigitKeys;
    }
  }

  lemma ClearedIsHyphenated(w: World, d: Uuid)
    requires WorldInv(w) && d in w.agents && w.agents[d].task.Cleared?
    ensures |w.agents[d].task.launch.request| == 36
  {
    var l := w.agents[d].task.launch;
    assert AgentOk(w.backend, w.launches, d, w.agents[d]);
    var id: Uuid :| Authorized(w.backend.db, d, l, id);
    assert |Hyphenated(id)| == 36;
  }
}
