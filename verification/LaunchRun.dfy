/**
 * One run of the whole system that launches something: an agent submits a request, an administrator
 * approves it, the agent polls, is delivered the decision, and starts the process.
 */
module LaunchRun {
  import opened Common
  import opened Timestamp
  import opened Utf8
  import opened Wire
  import opened WindowsPaths
  import TokenValidation
  import opened BackendInvariant
  import opened System
  import opened BackendProgress
  import opened SystemProgress
  import B = Backend
  import Safety = BackendSafety
  import Theorems = BackendTheorems
  import Payload = CanonicalPayload
  import A = Agent
  import Allowlist
  import SystemTheorems

  // ---------- parts of a run ----------

  lemma {:induction false} RunComposes(w: World, first: seq<Event>, second: seq<Event>)
    requires Run(w, first).Some?
    ensures Run(w, first + second) == Run(Run(w, first).value, second)
    decreases |second|
  {
    hide Next;
    if |second| == 0 {
      assert first + second == first;
    } else {
      var last := |second| - 1;
      RunComposes(w, first, second[..last]);
      assert (first + second)[..|first| + last] == first + second[..last];
    }
  }

  function OfBackendAll(steps: seq<B.Event>): seq<Event> {
    seq(|steps|, i requires 0 <= i < |steps| => OfBackend(steps[i]))
  }

  function OfAgentAll(d: Uuid, steps: seq<A.Event>): seq<Event> {
    seq(|steps|, i requires 0 <= i < |steps| => OfAgent(d, steps[i]))
  }

  lemma {:induction false} BackendPart(w: World, steps: seq<B.Event>)
    requires B.Run(w.backend, steps).Some?
    ensures Run(w, OfBackendAll(steps)) == Some(w.(backend := B.Run(w.backend, steps).value))
    decreases |steps|
  {
    hide B.Next;
    if |steps| > 0 {
      var last := |steps| - 1;
      BackendPart(w, steps[..last]);
      assert OfBackendAll(steps)[..last] == OfBackendAll(steps[..last]);
    }
  }

  lemma RunOne(w: World, e: Event)
    ensures Run(w, [e]) == Next(w, e)
  {
    hide Next;
    assert [e][..0] == [];
    assert Run(w, [e][..0]) == Some(w);
  }

  lemma {:induction false} AgentPart(w: World, d: Uuid, steps: seq<A.Event>)
    requires d in w.agents && A.Run(w.agents[d], Hyphenated(d), steps).Some?
    requires forall e :: e in steps ==> Deliverable(w.backend.released, e)
    ensures var (s, launches) := A.Run(w.agents[d], Hyphenated(d), steps).value;
            Run(w, OfAgentAll(d, steps)) == Some(SystemTheorems.WithRun(w, d, s, launches))
    decreases |steps|
  {
    hide A.Next;
    hide Deliverable;
    hide Hyphenated;
    hide Next;
    hide Run;
    if |steps| == 0 {
      NoSteps(w, d, steps);
    } else {
      FirstStep(w, d, steps);
      var first := OfAgent(d, steps[0]);
      var w1 := Next(w, first).value;
      AgentPart(w1, d, steps[1..]);
      RunOne(w, first);
      RunComposes(w, [first], OfAgentAll(d, steps[1..]));
      assert OfAgentAll(d, steps) == [first] + OfAgentAll(d, steps[1..]);
    }
  }

  lemma NoSteps(w: World, d: Uuid, steps: seq<A.Event>)
    requires d in w.agents && |steps| == 0
    ensures Run(w, OfAgentAll(d, steps)) == Some(SystemTheorems.WithRun(w, d, w.agents[d], []))
  {
    assert w.agents[d := w.agents[d]] == w.agents;
    assert SystemTheorems.WithRun(w, d, w.agents[d], []).launches == w.launches;
  }

  lemma AgentStepIs(w: World, d: Uuid, e: A.Event)
    requires d in w.agents && A.Next(w.agents[d], Hyphenated(d), e).Some? && Deliverable(w.backend.released, e)
    ensures var (s, launch) := A.Next(w.agents[d], Hyphenated(d), e).value;
            Next(w, OfAgent(d, e)) == Some(SystemTheorems.WithRun(w, d, s, A.Prepend(launch, [])))
  {
    hide A.Next;
    hide Deliverable;
    hide Hyphenated;
    var (s, launch) := A.Next(w.agents[d], Hyphenated(d), e).value;
    var launches := SystemTheorems.WithRun(w, d, s, A.Prepend(launch, [])).launches;
    assert launches == if launch.Some? then w.launches + [Launched(d, launch.value)] else w.launches;
  }

  lemma RunsAdd(w: World, d: Uuid, s: A.State, launch: Option<A.Launch>, s': A.State, rest: seq<A.Launch>)
    ensures var w1 := SystemTheorems.WithRun(w, d, s, A.Prepend(launch, []));
            && d in w1.agents && w1.agents[d] == s && w1.backend == w.backend
            && SystemTheorems.WithRun(w1, d, s', rest) == SystemTheorems.WithRun(w, d, s', A.Prepend(launch, rest))
  {
    var w1 := SystemTheorems.WithRun(w, d, s, A.Prepend(launch, []));
    var more := A.Prepend(launch, rest);
    assert w1.agents[d := s'] == w.agents[d := s'];
    if launch.None? {
      assert w1.launches == w.launches;
    } else {
      assert w1.launches == w.launches + [Launched(d, launch.value)] && more == [launch.value] + rest;
    }
    assert SystemTheorems.WithRun(w1, d, s', rest).launches == SystemTheorems.WithRun(w, d, s', more).launches;
  }

  /** The agent's first step leads to a world from which its other steps lead where all of them do. */
  lemma FirstStep(w: World, d: Uuid, steps: seq<A.Event>)
    requires d in w.agents && |steps| > 0 && A.Run(w.agents[d], Hyphenated(d), steps).Some?
    requires forall e :: e in steps ==> Deliverable(w.backend.released, e)
    ensures Next(w, OfAgent(d, steps[0])).Some?
    ensures var w1 := Next(w, OfAgent(d, steps[0])).value;
            var (s, launches) := A.Run(w.agents[d], Hyphenated(d), steps).value;
            && d in w1.agents && w1.backend == w.backend && A.Run(w1.agents[d], Hyphenated(d), steps[1..]).Some?
            && A.Run(w1.agents[d], Hyphenated(d), steps[1..]).value.0 == s
            && SystemTheorems.WithRun(w1, d, s, A.Run(w1.agents[d], Hyphenated(d), steps[1..]).value.1)
            == SystemTheorems.WithRun(w, d, s, launches)
  {
    hide A.Next;
    hide Next;
    hide Deliverable;
    hide Hyphenated;
    hide SystemTheorems.WithRun;
    hide A.Prepend;
    assert steps[0] in steps;
    AgentStepIs(w, d, steps[0]);
    var (s1, launch) := A.Next(w.agents[d], Hyphenated(d), steps[0]).value;
    var (s, rest) := A.Run(s1, Hyphenated(d), steps[1..]).value;
    RunsAdd(w, d, s1, launch, s, rest);
  }

  // ---------- from the submission to the launch ----------

  /** What happens, and what every clock, setting and random choice on the way is. */
  datatype Story = Story(raw: string, filing: Filing, review: Review, m: A.Surroundings)

  function AgentOf(y: Story): Uuid {
    y.filing.body.device
  }

  function RequestOf(y: Story): string {
    Hyphenated(y.filing.body.id)
  }

  /** The submission is fresh, the review undisturbed, the token in order, and the file as it was submitted. */
  predicate Unhindered(w: World, y: Story) {
    var d, f, v := AgentOf(y), y.filing, y.review;
    && d in w.agents && w.agents[d].task.Idle?
    && A.CheckPath(y.raw, Fixed, true).Some?
    && Fileable(w.backend, f) && v.id == f.body.id && Undisturbed(Filed(w.backend, f), v)
    && y.m.drive.Fixed? && y.m.onDisk
    && NothingInTheWay(Issued(FiledRow(f), v), A.CheckPath(y.raw, Fixed, true).value, w.agents[d].ledger, y.m)
  }

  function PathOf(y: Story): string
    requires A.CheckPath(y.raw, Fixed, true).Some?
  {
    A.CheckPath(y.raw, Fixed, true).value
  }

  function TokenOf(y: Story): B.Approval
    requires IsInstant(y.filing.now + y.filing.ttl * 1_000_000)
    requires CanSign(y.review.id, Reviewed(FiledRow(y.filing), y.review), Expiry(y.review), y.review.nonce)
  {
    Issued(FiledRow(y.filing), y.review)
  }

  /** The agent once it has submitted. */
  function Waiting(w: World, y: Story): A.State
    requires Unhindered(w, y)
  {
    var s := w.agents[AgentOf(y)];
    s.(requests := s.requests[RequestOf(y) := A.Tracked(PathOf(y), A.Pending)])
  }

  /** The backend once the approval is committed. */
  function Granted(w: World, y: Story): B.State
    requires Unhindered(w, y)
  {
    var s, v, q := Filed(w.backend, y.filing), y.review, FiledRow(y.filing);
    s.(db := B.Db(s.db.requests[v.id := Reviewed(q, v)], s.db.approvals[v.id := TokenOf(y)],
                  s.db.audit + multiset{B.ApprovedBy(v.id, v.admin, v.nonce)}))
  }

  function Answered(w: World, y: Story): A.Decision
    requires Unhindered(w, y)
  {
    ApprovedDecision(y.review.id, TokenOf(y))
  }

  function Before(w: World, y: Story): seq<Event> {
    [OfAgent(AgentOf(y), A.Submit(RequestOf(y), y.raw, Fixed, true))]
    + OfBackendAll(FilingSteps(y.filing)) + OfBackendAll(ApprovalSteps(y.review))
    + [OfBackend(B.Poll(AgentOf(y), y.review.reviewed))]
  }

  function After(w: World, y: Story): seq<Event>
    requires Unhindered(w, y)
  {
    OfAgentAll(AgentOf(y), A.StepsOf(Waiting(w, y), Hyphenated(AgentOf(y)), Answered(w, y), y.m))
  }

  function Polled(s: B.State, y: Story): B.State {
    B.Next(s, B.Poll(AgentOf(y), y.review.reviewed)).value
  }

  lemma Submits(w: World, y: Story)
    requires Unhindered(w, y)
    ensures Run(w, [OfAgent(AgentOf(y), A.Submit(RequestOf(y), y.raw, Fixed, true))])
         == Some(w.(agents := w.agents[AgentOf(y) := Waiting(w, y)]))
  {
    hide A.CheckPath;
    hide Fileable;
    hide Undisturbed;
    hide NothingInTheWay;
    RunOne(w, OfAgent(AgentOf(y), A.Submit(RequestOf(y), y.raw, Fixed, true)));
  }

  lemma BackendGrants(w: World, y: Story)
    requires Inv(w.backend) && Unhindered(w, y)
    ensures B.Run(w.backend, FilingSteps(y.filing)) == Some(Filed(w.backend, y.filing))
    ensures B.Run(Filed(w.backend, y.filing), ApprovalSteps(y.review)) == Some(Granted(w, y))
    ensures Inv(Granted(w, y))
  {
    hide Inv;
    hide B.Run;
    hide FilingSteps;
    hide ApprovalSteps;
    UndisturbedSubmissionCommits(w.backend, y.filing);
    Safety.RunKeepsInv(w.backend, FilingSteps(y.filing));
    UndisturbedApprovalCommits(Filed(w.backend, y.filing), y.review);
    Safety.RunKeepsInv(Filed(w.backend, y.filing), ApprovalSteps(y.review));
    hide A.CheckPath;
    hide Fileable;
    hide NothingInTheWay;
  }

  lemma ReachesTheAnswer(w: World, y: Story)
    requires Inv(w.backend) && Unhindered(w, y)
    ensures Run(w, Before(w, y))
         == Some(World(Polled(Granted(w, y), y), w.agents[AgentOf(y) := Waiting(w, y)], w.launches))
  {
    BackendGrants(w, y);
    Submits(w, y);
    hide *;
    var e0 := [OfAgent(AgentOf(y), A.Submit(RequestOf(y), y.raw, Fixed, true))];
    var e1, e2 := OfBackendAll(FilingSteps(y.filing)), OfBackendAll(ApprovalSteps(y.review));
    var w1 := w.(agents := w.agents[AgentOf(y) := Waiting(w, y)]);
    BackendPart(w1, FilingSteps(y.filing));
    RunComposes(w, e0, e1);
    var w2 := w1.(backend := Filed(w.backend, y.filing));
    BackendPart(w2, ApprovalSteps(y.review));
    RunComposes(w, e0 + e1, e2);
    PollRuns(w2.(backend := Granted(w, y)), y);
    RunComposes(w, e0 + e1 + e2, [OfBackend(B.Poll(AgentOf(y), y.review.reviewed))]);
    BeforeIs(w, y);
  }

  lemma BeforeIs(w: World, y: Story)
    ensures Before(w, y)
         == [OfAgent(AgentOf(y), A.Submit(RequestOf(y), y.raw, Fixed, true))] + OfBackendAll(FilingSteps(y.filing))
            + OfBackendAll(ApprovalSteps(y.review)) + [OfBackend(B.Poll(AgentOf(y), y.review.reviewed))]
  {
  }

  lemma PollRuns(w: World, y: Story)
    ensures Run(w, [OfBackend(B.Poll(AgentOf(y), y.review.reviewed))]) == Some(w.(backend := Polled(w.backend, y)))
  {
    RunOne(w, OfBackend(B.Poll(AgentOf(y), y.review.reviewed)));
  }

  /** The poll releases the token's payload. */
  lemma AnswerIsDeliverable(w: World, y: Story)
    requires Unhindered(w, y)
    ensures Deliverable(Polled(Granted(w, y), y).released, A.Deliver(Answered(w, y)))
  {
    hide A.CheckPath;
    hide Fileable;
    hide B.SignedPayload;
    hide NothingInTheWay;
    var db, v := Granted(w, y).db, y.review;
    assert v.id == y.filing.body.id;
    assert B.IsOffered(db, AgentOf(y), v.reviewed, v.id);
    var offered := B.DecisionOf(db, v.id);
    assert offered in B.Offered(db, AgentOf(y), v.reviewed);
    assert offered.token.value.signature == TokenOf(y).signature;
  }

  /** A path once accepted is accepted again as it is, while its drive is fixed and the file is there. */
  lemma CheckedPathIsCheckedAgain(raw: string)
    requires A.CheckPath(raw, Fixed, true).Some?
    ensures A.CheckPath(A.CheckPath(raw, Fixed, true).value, Fixed, true) == A.CheckPath(raw, Fixed, true)
  {
    RevalidationKeepsThePath(raw, _ => Fixed, _ => Fixed);
  }

  /** Handling one decision starts at most one process, for the request it names. */
  lemma AtMostOneLaunch(s: A.State, device: string, d: A.Decision, m: A.Surroundings)
    ensures var launches := A.HandleDecision(s, device, d, m).launches;
            && |launches| <= 1
            && (|launches| == 1 ==> d.request in s.requests && launches[0].request == d.request
                                    && launches[0].hash == m.hash
                                    && launches[0].tracked == s.requests[d.request].path)
  {
    hide A.CheckPath;
    hide TokenValidation.Validation;
  }

  lemma AgentLaunches(w: World, y: Story)
    requires Inv(w.backend) && Unhindered(w, y)
    ensures |A.HandleDecision(Waiting(w, y), Hyphenated(AgentOf(y)), Answered(w, y), y.m).launches| == 1
  {
    BackendGrants(w, y);
    AtMostOneLaunch(Waiting(w, y), Hyphenated(AgentOf(y)), Answered(w, y), y.m);
    LaunchIsDue(w, y);
    hide *;
  }

  lemma LaunchIsDue(w: World, y: Story)
    requires Unhindered(w, y) && Inv(Granted(w, y))
    ensures A.HandleDecision(Waiting(w, y), Hyphenated(AgentOf(y)), Answered(w, y), y.m).launches != []
  {
    hide Inv;
    hide A.CheckPath;
    hide A.HandleDecision;
    hide Fileable;
    hide B.SignedPayload;
    hide Hyphenated;
    hide NothingInTheWay;
    IssuedTokenLaunchesIff(Granted(w, y), y.review.id, Waiting(w, y), y.m);
  }

  lemma StepsAreDeliverable(w: World, y: Story)
    requires Unhindered(w, y)
    ensures var steps := A.StepsOf(Waiting(w, y), Hyphenated(AgentOf(y)), Answered(w, y), y.m);
            forall e :: e in steps ==> Deliverable(Polled(Granted(w, y), y).released, e)
  {
    AnswerIsDeliverable(w, y);
    hide Unhindered;
    hide Granted;
    hide Waiting;
    hide Answered;
    hide A.StepsOf;
    hide Polled;
    hide Obtainable;
    SystemTheorems.OnlyDeliversTheDecision(Waiting(w, y), Hyphenated(AgentOf(y)), Answered(w, y), y.m);
  }

  lemma WaitingIsIdle(w: World, y: Story)
    requires Unhindered(w, y)
    ensures Waiting(w, y).task.Idle? && RequestOf(y) in Waiting(w, y).requests
    ensures Waiting(w, y).requests[RequestOf(y)].path == PathOf(y) && Answered(w, y).request == RequestOf(y)
  {
    hide A.CheckPath;
    hide Fileable;
    hide NothingInTheWay;
  }

  lemma AgentPartOf(w: World, y: Story, w1: World)
    requires Inv(w.backend) && Unhindered(w, y)
    requires w1 == World(Polled(Granted(w, y), y), w.agents[AgentOf(y) := Waiting(w, y)], w.launches)
    ensures var h := A.HandleDecision(Waiting(w, y), Hyphenated(AgentOf(y)), Answered(w, y), y.m);
            Run(w1, After(w, y)) == Some(SystemTheorems.WithRun(w1, AgentOf(y), h.state, h.launches))
  {
    StepsAreDeliverable(w, y);
    WaitingIsIdle(w, y);
    hide Inv;
    hide Unhindered;
    hide Granted;
    hide Waiting;
    hide Answered;
    hide Polled;
    hide A.StepsOf;
    hide A.HandleDecision;
    hide Deliverable;
    hide Run;
    hide A.Run;
    hide SystemTheorems.WithRun;
    var d := AgentOf(y);
    A.HandlingIsARun(Waiting(w, y), Hyphenated(d), Answered(w, y), y.m);
    AgentPart(w1, d, A.StepsOf(Waiting(w, y), Hyphenated(d), Answered(w, y), y.m));
  }

  /** From any such state the run goes through, and adds exactly one launch: of that request and that path. */
  lemma LaunchFollows(w: World, y: Story)
    requires Inv(w.backend) && Unhindered(w, y)
    ensures Run(w, Before(w, y) + After(w, y)).Some?
    ensures var launches, n := Run(w, Before(w, y) + After(w, y)).value.launches, |w.launches|;
            && |launches| == n + 1 && launches[..n] == w.launches && launches[n].agent == AgentOf(y)
            && launches[n].launch.request == RequestOf(y) && launches[n].launch.tracked == PathOf(y)
  {
    ReachesTheAnswer(w, y);
    WaitingIsIdle(w, y);
    AgentLaunches(w, y);
    AtMostOneLaunch(Waiting(w, y), Hyphenated(AgentOf(y)), Answered(w, y), y.m);
    hide Inv;
    hide Unhindered;
    hide Before;
    hide After;
    hide Granted;
    hide Waiting;
    hide Answered;
    hide Polled;
    hide A.HandleDecision;
    hide Run;
    var w1 := World(Polled(Granted(w, y), y), w.agents[AgentOf(y) := Waiting(w, y)], w.launches);
    AgentPartOf(w, y, w1);
    RunComposes(w, Before(w, y), After(w, y));
  }

  // ---------- one such run ----------

  lemma {:induction false} EncodedLength(s: string)
    ensures |Utf8.Encode(s)| <= 4 * |s|
  {
    if |s| > 0 {
      EncodedLength(s[1..]);
    }
  }

  lemma ShortTextsFit(s: string)
    requires |s| <= 100
    ensures Payload.Fits(s)
  {
    EncodedLength(s);
  }

  // An instant of the year 1997; the story takes place around it.
  const NOON: Micros := 63_000_000_000_000_000

  lemma NoonIsRecent(us: Micros)
    requires NOON <= us < NOON + 1_000_000_000
    ensures YearOfMicros(us) >= 1000
  {
    assert us / 86_400_000_000 == 729_166;
    assert YearOf(729_166) == 1997;
  }

  lemma ShortPayloadIsSigned(id: Uuid, device: Uuid, sha256: string, expiresAt: Micros, nonce: string)
    requires |sha256| <= 100 && |nonce| <= 100 && YearOfMicros(expiresAt) >= 1000
    ensures B.SignedPayload(id, device, sha256, expiresAt, nonce).Ok?
  {
    PythonTextLength(PythonClock(expiresAt));
    LengthsOfTexts(id, device, sha256, expiresAt);
    SignedIffItFits(id, device, sha256, expiresAt, nonce);
    hide *;
    ShortTextsFit(Hyphenated(device));
    ShortTextsFit(Hyphenated(id));
    ShortTextsFit(Lower(sha256));
    ShortTextsFit(PythonText(expiresAt));
    ShortTextsFit(nonce);
  }

  lemma LengthsOfTexts(id: Uuid, device: Uuid, sha256: string, expiresAt: Micros)
    requires |PythonClockText(PythonClock(expiresAt))| == 33
    ensures |Hyphenated(device)| == 36 && |Hyphenated(id)| == 36 && |Lower(sha256)| == |sha256|
    ensures |PythonText(expiresAt)| == 33
  {
  }

  lemma SignedIffItFits(id: Uuid, device: Uuid, sha256: string, expiresAt: Micros, nonce: string)
    ensures B.SignedPayload(id, device, sha256, expiresAt, nonce).Ok?
       <==> && Payload.Fits(Hyphenated(device)) && Payload.Fits(Hyphenated(id)) && Payload.Fits(Lower(sha256))
            && Payload.Fits(PythonText(expiresAt)) && Payload.Fits(nonce)
  {
    assert UtcOf(PythonDatetime(expiresAt, Some(0))) == Result.Ok(expiresAt);
    hide Payload.Fits;
    hide Payload.FieldBytes;
    hide Hyphenated;
    hide Lower;
    hide PythonText;
  }

  /** A file at the root of a drive, under a clean name. */
  lemma RootFileIsAccepted(raw: string, name: string)
    requires IsDriveRooted(raw) && raw[3..] == name && IsSegment(name) && IsClean(name) && name != "."
    requires A.HasAllowedExtension([UpperLetter(raw[0])] + ":\\" + name)
    ensures A.CheckPath(raw, Fixed, true).Some?
  {
    hide A.HasAllowedExtension;
    hide IsDriveRooted;
    FirstSegment(name, "");
    assert name + "" == name;
    assert Segments("") == [];
    assert Segments(name) == [name];
    KeptOfKept([name]);
    AcceptedIff(raw);
    assert Canonicalize(raw).Some?;
    ValidateIff(raw, _ => Fixed);
    MeaningPreserved(raw);
    hide Canonicalize;
    CanonicalOfRootFile(raw, name);
  }

  lemma CanonicalOfRootFile(raw: string, name: string)
    requires Canonicalize(raw).Some? && Kept(Segments(raw[3..])) == [name]
    ensures Canonicalize(raw).value == [UpperLetter(raw[0])] + ":\\" + name
  {
  }

  const RAW := "C:\\a.exe"

  lemma RawIsAccepted()
    ensures A.CheckPath(RAW, Fixed, true).Some?
  {
    var path := [UpperLetter(RAW[0])] + ":\\" + "a.exe";
    assert |path| == 8 && path[4..] == ".exe";
    assert Lower(".exe") == ".exe";
    assert RAW[3..] == "a.exe";
    hide A.CheckPath;
    RootFileIsAccepted(RAW, "a.exe");
  }

  /** One device, one request, and a path, clock and text for the rest. */
  function Example(d: Uuid, id: Uuid, raw: string, now: Micros, text: string): Story {
    Story(raw,
          Filing(0, B.Submission(id, d, text, raw, None, B.Untrusted, true, None), now, 60),
          Review(0, id, 1, now, now, now, 60, text),
          A.Surroundings(true, Fixed, true, true, text, ToTicks(now), TokenValidation.NoFault, true, true, true))
  }

  function Fresh(d: Uuid): World {
    World(B.INITIAL, map[d := A.State({}, map[], A.Idle)], [])
  }

  lemma ExampleIsFileable(f: Filing)
    requires f.t == 0 && f.body.agentRoute && f.body.deviceGroup.None? && f.body.trust.Untrusted?
    requires IsInstant(f.now + f.ttl * 1_000_000)
    ensures Fileable(B.INITIAL, f)
  {
  }

  lemma ExampleIsUndisturbed(f: Filing, v: Review)
    requires Fileable(B.INITIAL, f) && v.id == f.body.id && v.t == 0 && v.checked < f.now + f.ttl * 1_000_000
    requires IsInstant(Expiry(v))
    requires B.SignedPayload(v.id, f.body.device, f.body.sha256, Expiry(v), v.nonce).Ok?
    ensures Undisturbed(Filed(B.INITIAL, f), v)
  {
    hide B.SignedPayload;
    hide Theorems.AllowlistMatches;
  }

  lemma ExampleIsUnhindered(d: Uuid, id: Uuid, raw: string, now: Micros, text: string)
    requires NOON <= now < NOON + 100_000_000 && 0 < |text| <= 100 && A.CheckPath(raw, Fixed, true).Some?
    ensures Unhindered(Fresh(d), Example(d, id, raw, now, text))
  {
    hide A.CheckPath;
    hide B.SignedPayload;
    hide YearOfMicros;
    hide Fileable;
    hide Undisturbed;
    hide NothingInTheWay;
    var y := Example(d, id, raw, now, text);
    NoonIsRecent(now + 60_000_000);
    ShortPayloadIsSigned(id, d, text, now + 60_000_000, text);
    ExampleFilingAndReview(d, id, raw, now, text);
    ExampleHasNothingInTheWay(Issued(FiledRow(y.filing), y.review), raw, now, text, y.m);
  }

  lemma ExampleFilingAndReview(d: Uuid, id: Uuid, raw: string, now: Micros, text: string)
    requires IsInstant(now + 60_000_000) && B.SignedPayload(id, d, text, now + 60_000_000, text).Ok?
    ensures var y := Example(d, id, raw, now, text);
            && Fileable(B.INITIAL, y.filing) && Undisturbed(Filed(B.INITIAL, y.filing), y.review)
            && CanSign(id, Reviewed(FiledRow(y.filing), y.review), Expiry(y.review), text)
            && FiledRow(y.filing).sha256 == text
  {
    hide Fileable;
    hide Undisturbed;
    hide B.SignedPayload;
    var y := Example(d, id, raw, now, text);
    ExampleIsFileable(y.filing);
    ExampleIsUndisturbed(y.filing, y.review);
  }

  lemma ExampleHasNothingInTheWay(a: B.Approval, raw: string, now: Micros, text: string, m: A.Surroundings)
    requires m == A.Surroundings(true, Fixed, true, true, text, ToTicks(now), TokenValidation.NoFault, true, true, true)
    requires A.CheckPath(raw, Fixed, true).Some?
    requires a.sha256 == text && a.nonce == text && text != "" && now < a.expiresAt && YearOfMicros(a.expiresAt) >= 1000
    ensures NothingInTheWay(a, A.CheckPath(raw, Fixed, true).value, {}, m)
  {
    hide A.CheckPath;
    hide YearOfMicros;
    CheckedPathIsCheckedAgain(raw);
  }

  /** For every device and request there is a run, from an empty backend, that launches exactly once. */
  lemma SomeRunLaunches(d: Uuid, id: Uuid) returns (start: World, events: seq<Event>)
    ensures IsInitial(start) && Run(start, events).Some?
    ensures var launches := Run(start, events).value.launches;
            |launches| == 1 && launches[0].agent == d && launches[0].launch.request == Hyphenated(id)
  {
    start := Fresh(d);
    var y := Example(d, id, RAW, NOON, "ab");
    assert y.filing.body.id == id && AgentOf(y) == d && start.launches == [] && start.backend == B.INITIAL;
    assert IsInitial(start);
    hide *;
    RawIsAccepted();
    ExampleIsUnhindered(d, id, RAW, NOON, "ab");
    Safety.InitialInv();
    events := Before(start, y) + After(start, y);
    LaunchFollows(start, y);
    NamesRequest(y, d, id);
  }

  lemma NamesRequest(y: Story, d: Uuid, id: Uuid)
    requires y.filing.body.id == id && y.filing.body.device == d
    ensures RequestOf(y) == Hyphenated(id) && AgentOf(y) == d
  {
  }
}
