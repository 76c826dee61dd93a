/**
 * The agent: the requests it tracks in memory, its durable nonce ledger, and the one decision it is
 * working on. One event is one step a restart can fall between.
 */
module Agent {
  import opened Common
  import opened Timestamp
  import opened Wire
  import opened WindowsPaths
  import opened TokenValidation

  datatype LocalStatus = Pending | Approved | Denied | Expired | Failed

  datatype Tracked = Tracked(path: string, status: LocalStatus)

  datatype Decision = Decision(request: string, status: LocalStatus, token: Option<WireToken>)

  /** A process start: for which request, of which path and content, on which token, admitted at which time. */
  datatype Launch = Launch(request: string, tracked: string, path: string, hash: string, token: WireToken, clock: Ticks)

  datatype Task =
    | Idle
    | Handling(request: string, path: string, token: WireToken)
    | Hashed(request: string, tracked: string, path: string, hash: string, token: WireToken)
    | Admitted(launch: Launch)
    | Cleared(launch: Launch)
    | Running(request: string)
    | Ran(request: string, success: bool)

  /** The ledger survives a restart; the request map and the task do not. */
  datatype State = State(ledger: set<string>, requests: map<string, Tracked>, task: Task)

  datatype Event =
    | Submit(request: string, rawPath: string, drive: DriveClass, onDisk: bool)
    | SubmitFailed(request: string)
    | Deliver(decision: Decision)
    | Rehash(drive: DriveClass, onDisk: bool, hash: string)
    | Admit(now: Ticks)
    | SpendNonce
    | Start(started: bool)
    | Exit(success: bool)
    | Report
    | FailCycle
    | Restart

  predicate HasAllowedExtension(path: string) {
    |path| >= 4 && Lower(path[|path| - 4..]) in {".exe", ".msi"}
  }

  function CheckPath(raw: string, drive: DriveClass, onDisk: bool): Option<string> {
    match Validate(raw, _ => drive)
    case Err(_) => None
    case Ok(path) => if HasAllowedExtension(path) && onDisk then Some(path) else None
  }

  /** `UpdateStatus` keeps the tracked path. */
  function WithStatus(s: State, request: string, status: LocalStatus): State {
    if request in s.requests
    then s.(requests := s.requests[request := s.requests[request].(status := status)])
    else s
  }

  function StepDeliver(s: State, d: Decision): Option<State> {
    if !s.task.Idle? then None
    else if d.request !in s.requests then Some(s)
    else
      match d.status
      case Denied => Some(WithStatus(s, d.request, Denied))
      case Expired => Some(WithStatus(s, d.request, LocalStatus.Expired))
      case Approved =>
        (match d.token
         case None => Some(WithStatus(s, d.request, Failed))
         case Some(token) => Some(s.(task := Handling(d.request, s.requests[d.request].path, token))))
      case _ => Some(s)
  }

  function StepAdmit(s: State, device: string, now: Ticks): Option<State> {
    if !s.task.Hashed? then None
    else
      var k := s.task;
      match Admission(k.token, device, k.request, now)
      case None => Some(s.(task := Task.Admitted(Launch(k.request, k.tracked, k.path, k.hash, k.token, now))))
      case Some(Threw) => Some(s.(task := Idle))
      case Some(_) => Some(s.(task := Ran(k.request, false)))
  }

  function StepSpend(s: State): Option<State> {
    if !s.task.Admitted? then None
    else
      var l := s.task.launch;
      var (verdict, ledger) := Spend(l.token, l.hash, s.ledger);
      Some(s.(ledger := ledger,
              task := if verdict.Valid? then Cleared(l) else if verdict.Threw? then Idle else Ran(l.request, false)))
  }

  /** One step of the agent enrolled as `device`; a started process is the second component. */
  function Next(s: State, device: string, e: Event): Option<(State, Option<Launch>)> {
    match e
    case Submit(request, raw, drive, onDisk) =>
      (match CheckPath(raw, drive, onDisk)
       case None => None
       case Some(path) => Some((s.(requests := s.requests[request := Tracked(path, Pending)]), None)))
    case SubmitFailed(request) => Some((WithStatus(s, request, Failed), None))
    case Deliver(d) => Silently(StepDeliver(s, d))
    case Rehash(drive, onDisk, hash) =>
      if s.task.Handling? then
        var k := s.task;
        (match CheckPath(k.path, drive, onDisk)
         case None => Some((s.(task := Ran(k.request, false)), None))
         case Some(path) => Some((s.(task := Hashed(k.request, k.path, path, hash, k.token)), None)))
      else None
    case Admit(now) => Silently(StepAdmit(s, device, now))
    case SpendNonce => Silently(StepSpend(s))
    case Start(started) =>
      if !s.task.Cleared? then None
      else if started then Some((s.(task := Running(s.task.launch.request)), Some(s.task.launch)))
      else Some((s.(task := Ran(s.task.launch.request, false)), None))
    case Exit(success) =>
      if s.task.Running? then Some((s.(task := Ran(s.task.request, success)), None)) else None
    case Report =>
      if s.task.Ran?
      then Some((WithStatus(s, s.task.request, if s.task.success then Approved else Failed).(task := Idle), None))
      else None
    case FailCycle => Some((s.(task := Idle), None))
    case Restart => Some((State(s.ledger, map[], Idle), None))
  }

  function Silently(s: Option<State>): Option<(State, Option<Launch>)> {
    if s.None? then None else Some((s.value, None))
  }

  // ---------- the worker and the engine as the code runs them ----------

  /**
   * What the machine answers while one decision is handled; `noted` and `recorded` say whether the
   * local audit log takes the row before the decision takes effect, and the row after an execution;
   * `fault` is what the ledger's database does.
   */
  datatype Surroundings = Surroundings(
    noted: bool, drive: DriveClass, onDisk: bool, readable: bool, hash: string, now: Ticks, fault: Fault,
    started: bool, success: bool, recorded: bool)

  /** After handling a decision: the agent, the processes started, and whether an exception ended the cycle. */
  datatype Handled = Handled(state: State, launches: seq<Launch>, threw: bool)

  /** What is left of executing a token once its path is checked and its file hashed. */
  function Validated(s: State, device: string, l: Launch, m: Surroundings): Handled {
    var (verdict, ledger) := Validation(l.token, device, l.request, m.hash, m.now, s.ledger, m.fault);
    var spent := s.(ledger := ledger, task := Idle);
    if verdict.Threw? then Handled(spent, [], true)
    else if verdict.Invalid? || !m.started then Handled(WithStatus(spent, l.request, Failed), [], false)
    else Handled(WithStatus(spent, l.request, if m.success then Approved else Failed), [l], false)
  }

  function Execute(s: State, device: string, request: string, path: string, token: WireToken, m: Surroundings): Handled
  {
    match CheckPath(path, m.drive, m.onDisk)
    case None => Handled(WithStatus(s, request, Failed), [], false)
    case Some(checked) =>
      if m.readable then Validated(s, device, Launch(request, path, checked, m.hash, token, m.now), m)
      else Handled(s, [], true)
  }

  /** The audit row after an execution: when it cannot be written, all is done but the cycle ends. */
  function Recorded(h: Handled, m: Surroundings): Handled {
    if m.recorded then h else h.(threw := true)
  }

  function HandleDecision(s: State, device: string, d: Decision, m: Surroundings): Handled {
    if d.request !in s.requests then Handled(s, [], false)
    else if !m.noted then Handled(s, [], true)
    else
      match d.status
      case Denied => Handled(WithStatus(s, d.request, Denied), [], false)
      case Expired => Handled(WithStatus(s, d.request, LocalStatus.Expired), [], false)
      case Approved =>
        (match d.token
         case None => Handled(WithStatus(s, d.request, Failed), [], false)
         case Some(token) => Recorded(Execute(s, device, d.request, s.requests[d.request].path, token, m), m))
      case _ => Handled(s, [], false)
  }

  /** A batch, up to the first exception. */
  function HandleBatch(s: State, device: string, batch: seq<(Decision, Surroundings)>): Handled {
    if |batch| == 0 then Handled(s, [], false)
    else
      var last := |batch| - 1;
      var before := HandleBatch(s, device, batch[..last]);
      if before.threw then before
      else
        var now := HandleDecision(before.state, device, batch[last].0, batch[last].1);
        Handled(now.state, before.launches + now.launches, now.threw)
  }

  function Run(s: State, device: string, events: seq<Event>): Option<(State, seq<Launch>)>
    decreases |events|
  {
    if |events| == 0 then Some((s, []))
    else
      match Next(s, device, events[0])
      case None => None
      case Some((s', launch)) =>
        match Run(s', device, events[1..])
        case None => None
        case Some((end, launches)) => Some((end, Prepend(launch, launches)))
  }

  function Prepend(launch: Option<Launch>, launches: seq<Launch>): seq<Launch> {
    if launch.Some? then [launch.value] + launches else launches
  }

  /** The steps the handling of one decision consists of. */
  function StepsOf(s: State, device: string, d: Decision, m: Surroundings): seq<Event> {
    if d.request in s.requests && !m.noted then []
    else if d.request !in s.requests || !d.status.Approved? || d.token.None? then [Deliver(d)]
    else [Deliver(d)] + StepsOfExecution(s, device, d.request, s.requests[d.request].path, d.token.value, m)
  }

  function StepsOfExecution(s: State, device: string, request: string, path: string, token: WireToken, m: Surroundings)
    : seq<Event>
  {
    if CheckPath(path, m.drive, m.onDisk).None? then [Rehash(m.drive, m.onDisk, m.hash)] + [Report]
    else if !m.readable then [FailCycle]
    else
      [Rehash(m.drive, m.onDisk, m.hash)]
      + ([Admit(m.now)] + StepsAfterAdmission(s.ledger, device, request, token, m))
  }

  function StepsAfterAdmission(
      ledger: set<string>, device: string, request: string, token: WireToken, m: Surroundings): seq<Event>
  {
    match Admission(token, device, request, m.now)
    case Some(Threw) => []
    case Some(_) => [Report]
    case None =>
      match m.fault
      case BeforeWrite => [FailCycle]
      case AfterWrite => [SpendNonce] + [FailCycle]
      case NoFault =>
        match Spend(token, m.hash, ledger).0
        case Threw => [SpendNonce]
        case Invalid(_) => [SpendNonce] + [Report]
        case Valid => [SpendNonce] + StepsOfLaunch(m)
  }

  function StepsOfLaunch(m: Surroundings): seq<Event> {
    if m.started then [Start(true)] + ([Exit(m.success)] + [Report]) else [Start(false)] + [Report]
  }

  lemma RunCons(s: State, device: string, e: Event, rest: seq<Event>)
    requires Next(s, device, e).Some? && Run(Next(s, device, e).value.0, device, rest).Some?
    ensures var (s', launch) := Next(s, device, e).value;
            var (end, launches) := Run(s', device, rest).value;
            Run(s, device, [e] + rest) == Some((end, Prepend(launch, launches)))
  {
    hide Next;
    assert ([e] + rest)[0] == e && ([e] + rest)[1..] == rest;
  }

  lemma RunOne(s: State, device: string, e: Event)
    requires Next(s, device, e).Some?
    ensures var (s', launch) := Next(s, device, e).value;
            Run(s, device, [e]) == Some((s', Prepend(launch, [])))
  {
    hide Next;
    RunCons(s, device, e, []);
    assert [e] + [] == [e];
  }

  lemma LaunchSteps(s: State, device: string, l: Launch, m: Surroundings)
    requires s.task == Cleared(l)
    ensures Run(s, device, StepsOfLaunch(m))
         == Some((WithStatus(s.(task := Idle), l.request, if m.started && m.success then Approved else Failed),
                  if m.started then [l] else []))
  {
    if m.started {
      var s1 := s.(task := Running(l.request));
      var s2 := s.(task := Ran(l.request, m.success));
      RunOne(s2, device, Report);
      RunCons(s1, device, Exit(m.success), [Report]);
      RunCons(s, device, Start(true), [Exit(m.success)] + [Report]);
      assert [l] + [] == [l];
    } else {
      RunOne(s.(task := Ran(l.request, false)), device, Report);
      RunCons(s, device, Start(false), [Report]);
    }
  }

  function AfterSpend(s: State, l: Launch, m: Surroundings): State {
    var (verdict, spent) := Spend(l.token, m.hash, s.ledger);
    var idle := s.(task := Idle, ledger := if m.fault.BeforeWrite? then s.ledger else spent);
    if verdict.Threw? || !m.fault.NoFault? then idle
    else if verdict.Invalid? then WithStatus(idle, l.request, Failed)
    else WithStatus(idle, l.request, if m.started && m.success then Approved else Failed)
  }

  lemma SpendSteps(s: State, device: string, l: Launch, m: Surroundings)
    requires s.task == Task.Admitted(l) && l.hash == m.hash && l.clock == m.now
    requires Admission(l.token, device, l.request, m.now).None?
    ensures Run(s, device, StepsAfterAdmission(s.ledger, device, l.request, l.token, m))
         == Some((AfterSpend(s, l, m),
                  if m.fault.NoFault? && Spend(l.token, m.hash, s.ledger).0.Valid? && m.started then [l] else []))
  {
    hide Admission;
    var s1 := StepSpend(s).value;
    if m.fault.BeforeWrite? {
      RunOne(s, device, FailCycle);
      return;
    } else if m.fault.AfterWrite? {
      RunOne(s1, device, FailCycle);
      RunCons(s, device, SpendNonce, [FailCycle]);
      return;
    }
    match Spend(l.token, m.hash, s.ledger).0
    case Threw =>
      RunOne(s, device, SpendNonce);
    case Invalid(_) =>
      RunOne(s1, device, Report);
      RunCons(s, device, SpendNonce, [Report]);
    case Valid =>
      LaunchSteps(s1, device, l, m);
      RunCons(s, device, SpendNonce, StepsOfLaunch(m));
  }

  lemma RefusedSteps(s: State, device: string, l: Launch, m: Surroundings, verdict: Verdict)
    requires s.task == Hashed(l.request, l.tracked, l.path, l.hash, l.token) && l.hash == m.hash && l.clock == m.now
    requires Admission(l.token, device, l.request, m.now) == Some(verdict) && !verdict.Valid?
    ensures Run(s, device, [Admit(m.now)] + StepsAfterAdmission(s.ledger, device, l.request, l.token, m))
         == Some((Validated(s, device, l, m).state, Validated(s, device, l, m).launches))
  {
    hide Admission;
    hide Spend;
    if verdict.Threw? {
      RunCons(s, device, Admit(m.now), []);
    } else {
      RunOne(s.(task := Ran(l.request, false)), device, Report);
      RunCons(s, device, Admit(m.now), [Report]);
    }
  }

  lemma AdmissionSteps(s: State, device: string, l: Launch, m: Surroundings)
    requires s.task == Hashed(l.request, l.tracked, l.path, l.hash, l.token) && l.hash == m.hash && l.clock == m.now
    ensures Run(s, device, [Admit(m.now)] + StepsAfterAdmission(s.ledger, device, l.request, l.token, m))
         == Some((Validated(s, device, l, m).state, Validated(s, device, l, m).launches))
  {
    AdmissionIsNeverValid(l.token, device, l.request, m.now);
    hide Admission;
    hide StepsAfterAdmission;
    match Admission(l.token, device, l.request, m.now)
    case Some(verdict) => RefusedSteps(s, device, l, m, verdict);
    case None =>
      var s1 := s.(task := Task.Admitted(l));
      SpendSteps(s1, device, l, m);
      RunCons(s, device, Admit(m.now), StepsAfterAdmission(s.ledger, device, l.request, l.token, m));
  }

  lemma AdmissionIsNeverValid(t: WireToken, device: string, request: string, now: Ticks)
    ensures Admission(t, device, request, now) != Some(Valid)
  {
  }

  lemma ValidatedIgnoresTask(s: State, s': State, device: string, l: Launch, m: Surroundings)
    requires s' == s.(task := s'.task)
    ensures Validated(s, device, l, m) == Validated(s', device, l, m)
  {
    hide Validation;
  }

  lemma ExecutionSteps(s: State, device: string, request: string, path: string, token: WireToken, m: Surroundings)
    requires s.task == Handling(request, path, token)
    ensures var h := Execute(s.(task := Idle), device, request, path, token, m);
            Run(s, device, StepsOfExecution(s, device, request, path, token, m)) == Some((h.state, h.launches))
  {
    hide CheckPath;
    hide Validated;
    hide StepsAfterAdmission;
    var checked := CheckPath(path, m.drive, m.onDisk);
    if checked.None? {
      RunOne(s.(task := Ran(request, false)), device, Report);
      RunCons(s, device, Rehash(m.drive, m.onDisk, m.hash), [Report]);
    } else if !m.readable {
      RunOne(s, device, FailCycle);
    } else {
      ReadableSteps(s, device, Launch(request, path, checked.value, m.hash, token, m.now), m);
    }
  }

  lemma ReadableSteps(s: State, device: string, l: Launch, m: Surroundings)
    requires s.task == Handling(l.request, l.tracked, l.token) && l.hash == m.hash && l.clock == m.now
    requires CheckPath(l.tracked, m.drive, m.onDisk) == Some(l.path)
    ensures var h := Validated(s.(task := Idle), device, l, m);
            var steps := [Admit(m.now)] + StepsAfterAdmission(s.ledger, device, l.request, l.token, m);
            Run(s, device, [Rehash(m.drive, m.onDisk, m.hash)] + steps) == Some((h.state, h.launches))
  {
    hide CheckPath;
    hide Validated;
    hide StepsAfterAdmission;
    var s1 := s.(task := Hashed(l.request, l.tracked, l.path, m.hash, l.token));
    AdmissionSteps(s1, device, l, m);
    ValidatedIgnoresTask(s1, s.(task := Idle), device, l, m);
    RunCons(s, device, Rehash(m.drive, m.onDisk, m.hash),
            [Admit(m.now)] + StepsAfterAdmission(s.ledger, device, l.request, l.token, m));
  }

  /** Handling a decision in one go is a run of single steps, so what holds at every step holds for it. */
  lemma HandlingIsARun(s: State, device: string, d: Decision, m: Surroundings)
    requires s.task.Idle?
    ensures var h := HandleDecision(s, device, d, m);
            Run(s, device, StepsOf(s, device, d, m)) == Some((h.state, h.launches))
  {
    hide Execute;
    if d.request in s.requests && !m.noted {
    } else if d.request !in s.requests || !d.status.Approved? || d.token.None? {
      RunOne(s, device, Deliver(d));
    } else {
      var path := s.requests[d.request].path;
      var s1 := s.(task := Handling(d.request, path, d.token.value));
      ExecutionSteps(s1, device, d.request, path, d.token.value, m);
      assert s1.(task := Idle) == s;
      RunCons(s, device, Deliver(d), StepsOfExecution(s1, device, d.request, path, d.token.value, m));
    }
  }

  lemma LaunchSpendsTheNonce(s: State, device: string, d: Decision, m: Surroundings)
    requires HandleDecision(s, device, d, m).launches != []
    ensures var after := HandleDecision(s, device, d, m).state;
            && d.request in s.requests && d.request in after.requests
            && after.requests[d.request].path == s.requests[d.request].path
            && d.status.Approved? && d.token.Some?
            && d.token.value.nonce != "" && d.token.value.nonce in after.ledger
            && Admission(d.token.value, device, d.request, m.now).None? && after.task.Idle?
  {
    if d.token.Some? {
      AdmissionIsNeverValid(d.token.value, device, d.request, m.now);
    }
    hide CheckPath;
    hide Admission;
  }

  /** Only the expiry check of admission depends on when it is made. */
  lemma LaterAdmission(t: WireToken, device: string, request: string, now: Ticks, later: Ticks)
    requires Admission(t, device, request, now).None?
    ensures Admission(t, device, request, later)
         == if t.expiresAt <= later then Some(Invalid(Rejection.Expired)) else None
  {
  }

  lemma RefusedExecution(s: State, device: string, request: string, path: string, token: WireToken, m: Surroundings)
    requires m.noted && s.task.Idle? && token.nonce != "" && token.nonce in s.ledger
    requires Admission(token, device, request, m.now)
          == if token.expiresAt <= m.now then Some(Invalid(Rejection.Expired)) else None
    ensures var h := Execute(s, device, request, path, token, m);
            && h.launches == []
            && (h.threw <==> StopsShort(path, token, m))
            && h.state == if h.threw then s else WithStatus(s, request, Failed)
  {
    hide Admission;
    hide CheckPath;
    assert s.(ledger := s.ledger, task := Idle) == s;
  }

  /** An exception of the audit log, the file or the ledger ends the handling of a spent token. */
  predicate StopsShort(path: string, token: WireToken, m: Surroundings) {
    || !m.noted
    || (CheckPath(path, m.drive, m.onDisk).Some? && (!m.readable || (m.now < token.expiresAt && !m.fault.NoFault?)))
  }

  /**
   * A launched decision that is delivered again launches nothing, whatever has changed on the machine,
   * and turns the status to Failed unless the audit log, the file or the ledger throws before.
   */
  lemma RedeliveryTurnsApprovedIntoFailed(s: State, device: string, d: Decision, m: Surroundings, m': Surroundings)
    requires HandleDecision(s, device, d, m).launches != []
    ensures var once := HandleDecision(s, device, d, m).state;
            var twice := HandleDecision(once, device, d, m');
            && twice.launches == [] && d.request in once.requests && d.token.Some?
            && (twice.threw <==> StopsShort(once.requests[d.request].path, d.token.value, m') || !m'.recorded)
            && twice.state == if StopsShort(once.requests[d.request].path, d.token.value, m') then once
                              else WithStatus(once, d.request, Failed)
  {
    LaunchSpendsTheNonce(s, device, d, m);
    LaterAdmission(d.token.value, device, d.request, m.now, m'.now);
    var once := HandleDecision(s, device, d, m).state;
    if m'.noted {
      RefusedExecution(once, device, d.request, once.requests[d.request].path, d.token.value, m');
    }
    hide Admission;
    hide CheckPath;
    hide Execute;
  }

  /** A failed cycle asks from the same time again; any other from the clock after its batch. */
  function NextWatermark(since: Ticks, failed: bool, clock: Ticks): Ticks {
    if failed then since else clock
  }

  // ---------- what the checks and the decisions come to ----------

  predicate EndsIn(path: string, a: char, b: char, c: char) {
    && |path| >= 4 && path[|path| - 4] == '.'
    && SameUpToCase(path[|path| - 3], a) && SameUpToCase(path[|path| - 2], b) && SameUpToCase(path[|path| - 1], c)
  }

  /** The path of an installer: .exe or .msi, in any case. */
  predicate IsInstaller(path: string) {
    EndsIn(path, 'e', 'x', 'e') || EndsIn(path, 'm', 's', 'i')
  }

  lemma EndsInIff(path: string, a: char, b: char, c: char)
    requires |path| >= 4 && Lower([a, b, c]) == [a, b, c]
    ensures Lower(path[|path| - 4..]) == ['.', a, b, c] <==> EndsIn(path, a, b, c)
  {
    var tail, ending := path[|path| - 4..], ['.', a, b, c];
    assert Lower(ending) == ['.'] + Lower([a, b, c]);
    LowerAgreesIff(tail, ending);
    if EndsIn(path, a, b, c) {
      forall i | 0 <= i < 4 ensures SameUpToCase(tail[i], ending[i]) {
      }
    }
    if Lower(tail) == Lower(ending) {
      assert SameUpToCase(tail[0], ending[0]) && SameUpToCase(tail[1], ending[1]);
      assert SameUpToCase(tail[2], ending[2]) && SameUpToCase(tail[3], ending[3]);
    }
  }

  /**
   * A path passes the check exactly when it canonicalizes, its drive is fixed, the file is there, and it
   * is an installer.
   */
  lemma CheckPathIff(raw: string, drive: DriveClass, onDisk: bool, path: string)
    ensures CheckPath(raw, drive, onDisk) == Some(path)
       <==> Canonicalize(raw) == Some(path) && drive == Fixed && onDisk && IsInstaller(path)
  {
    ValidateIff(raw, _ => drive);
    if |path| >= 4 {
      assert Lower(['e', 'x', 'e']) == ['e', 'x', 'e'] && Lower(['m', 's', 'i']) == ['m', 's', 'i'];
      EndsInIff(path, 'e', 'x', 'e');
      EndsInIff(path, 'm', 's', 'i');
      assert ".exe" == ['.', 'e', 'x', 'e'] && ".msi" == ['.', 'm', 's', 'i'];
    }
    hide Validate;
    hide Canonicalize;
  }

  /** An exception ends the execution of a token: the file cannot be read, or the validator throws. */
  predicate Breaks(s: State, device: string, request: string, token: WireToken, m: Surroundings)
    requires request in s.requests
  {
    && CheckPath(s.requests[request].path, m.drive, m.onDisk).Some?
    && (!m.readable || Validation(token, device, request, m.hash, m.now, s.ledger, m.fault).0.Threw?)
  }

  /**
   * What a decision does to what the agent shows: nothing to any other request and to any path; Denied
   * and Expired as they come; and for an approval Approved exactly when it launched a process that
   * succeeded, the status of before exactly when an exception came first, and Failed in every other case.
   */
  lemma StatusAfterHandling(s: State, device: string, d: Decision, m: Surroundings)
    ensures var after := HandleDecision(s, device, d, m).state.requests;
            && after.Keys == s.requests.Keys
            && (forall r :: r in s.requests ==> after[r].path == s.requests[r].path)
            && (forall r :: r in s.requests && r != d.request ==> after[r].status == s.requests[r].status)
    ensures d.request in s.requests ==>
              var h, was := HandleDecision(s, device, d, m), s.requests[d.request].status;
              var status := h.state.requests[d.request].status;
              && (!m.noted || d.status.Pending? || d.status.Failed? ==> status == was)
              && (m.noted && d.status.Denied? ==> status == Denied)
              && (m.noted && d.status.Expired? ==> status == LocalStatus.Expired)
              && (m.noted && d.status.Approved? && d.token.None? ==> status == Failed)
              && (m.noted && d.status.Approved? && d.token.Some? ==>
                    if h.launches != [] then status == if m.success then Approved else Failed
                    else if Breaks(s, device, d.request, d.token.value, m) then status == was
                    else status == Failed)
              && (h.threw <==> !m.noted
                               || (d.status.Approved? && d.token.Some?
                                   && (Breaks(s, device, d.request, d.token.value, m) || !m.recorded)))
    ensures d.request !in s.requests ==> HandleDecision(s, device, d, m) == Handled(s, [], false)
  {
    hide CheckPath;
    hide Execute;
    hide Validation;
    if d.request in s.requests && d.token.Some? {
      ExecutionShows(s, device, d.request, d.token.value, m);
    }
  }

  /** A decision spends a nonce exactly when it takes its token to the ledger, and no other. */
  lemma LedgerAfterHandling(s: State, device: string, d: Decision, m: Surroundings)
    ensures HandleDecision(s, device, d, m).state.ledger
         == if && d.request in s.requests && m.noted && d.status.Approved? && d.token.Some?
               && CheckPath(s.requests[d.request].path, m.drive, m.onDisk).Some? && m.readable
            then Validation(d.token.value, device, d.request, m.hash, m.now, s.ledger, m.fault).1
            else s.ledger
  {
    hide CheckPath;
    hide Validation;
  }

  lemma ExecutionShows(s: State, device: string, request: string, token: WireToken, m: Surroundings)
    requires request in s.requests
    ensures var h := Execute(s, device, request, s.requests[request].path, token, m);
            && h.state.requests.Keys == s.requests.Keys
            && (forall r :: r in s.requests ==> h.state.requests[r].path == s.requests[r].path)
            && (forall r :: r in s.requests && r != request ==> h.state.requests[r].status == s.requests[r].status)
            && h.state.requests[request].status
               == (if h.launches != [] then (if m.success then Approved else Failed)
                   else if Breaks(s, device, request, token, m) then s.requests[request].status
                   else Failed)
            && (h.threw <==> Breaks(s, device, request, token, m))
  {
    hide CheckPath;
    hide Validation;
  }

  // ---------- the classes ----------

  /** Requests this process has submitted; lost with the process. */
  class RequestStateStore {
    var requests: map<string, Tracked>

    constructor ()
      ensures requests == map[]
    {
      requests := map[];
    }

    method Add(request: string, tracked: Tracked)
      modifies this
      ensures requests == old(requests)[request := tracked]
    {
      requests := requests[request := tracked];
    }

    method Get(request: string) returns (tracked: Option<Tracked>)
      ensures tracked == if request in requests then Some(requests[request]) else None
    {
      tracked := if request in requests then Some(requests[request]) else None;
    }

    /** Throws on an unknown request. */
    method UpdateStatus(request: string, status: LocalStatus) returns (threw: bool)
      modifies this
      ensures threw <==> request !in old(requests)
      ensures requests == if threw then old(requests)
                          else old(requests)[request := old(requests)[request].(status := status)]
    {
      if request !in requests {
        return true;
      }
      requests := requests[request := requests[request].(status := status)];
      return false;
    }
  }

  class ApprovalPollingWorker {
    const device: string
    const stateStore: RequestStateStore
    const nonceStore: SqliteNonceStore
    const validator: ApprovalTokenValidator
    /** Every process the execution engine has started. */
    var launches: seq<Launch>
    var sinceUtc: Ticks

    ghost predicate Valid()
      reads this
    {
      validator.nonceStore == nonceStore
    }

    ghost function Snapshot(): State
      reads this, stateStore, nonceStore
    {
      State(nonceStore.consumed, stateStore.requests, Idle)
    }

    constructor (deviceId: string, states: RequestStateStore, nonces: SqliteNonceStore, now: Ticks)
      ensures Valid() && stateStore == states && nonceStore == nonces && device == deviceId
      ensures launches == [] && sinceUtc == now
    {
      device, stateStore, nonceStore := deviceId, states, nonces;
      validator := new ApprovalTokenValidator(nonces);
      launches, sinceUtc := [], now;
    }

    /** `ExecutionEngine.ExecuteAsync`: re-check the path, hash the file, validate the token, start the process. */
    method ExecuteToken(token: WireToken, request: string, rawPath: string, m: Surroundings)
      returns (success: bool, threw: bool)
      requires Valid()
      modifies this`launches, nonceStore
      ensures var h := Execute(old(Snapshot()), device, request, rawPath, token, m);
              && threw == h.threw
              && launches == old(launches) + h.launches
              && h.state == if threw then Snapshot()
                            else WithStatus(Snapshot(), request, if success then Approved else Failed)
    {
      var checked := CheckPath(rawPath, m.drive, m.onDisk);
      if checked.None? {
        return false, false;
      }
      if !m.readable {
        return false, true;
      }
      var verdict := validator.Validate(token, device, request, m.hash, m.now, m.fault);
      if verdict.Threw? {
        return false, true;
      }
      if !verdict.Valid? || !m.started {
        return false, false;
      }
      launches := launches + [Launch(request, rawPath, checked.value, m.hash, token, m.now)];
      return m.success, false;
    }

    method Handle(d: Decision, m: Surroundings) returns (threw: bool)
      requires Valid()
      modifies this`launches, nonceStore, stateStore
      ensures var h := HandleDecision(old(Snapshot()), device, d, m);
              && threw == h.threw && Snapshot() == h.state && launches == old(launches) + h.launches
    {
      var tracked := stateStore.Get(d.request);
      if tracked.None? {
        return false;
      }
      if !m.noted {
        return true;
      }
      match d.status {
        case Denied => threw := stateStore.UpdateStatus(d.request, d.status);
        case Expired => threw := stateStore.UpdateStatus(d.request, d.status);
        case Approved =>
          if d.token.None? {
            threw := stateStore.UpdateStatus(d.request, Failed);
            return threw;
          }
          var success;
          success, threw := ExecuteToken(d.token.value, d.request, tracked.value.path, m);
          if threw {
            return true;
          }
          threw := stateStore.UpdateStatus(d.request, if success then Approved else Failed);
          threw := !m.recorded;
        case _ => threw := false;
      }
    }

    /** Works through a batch; an exception ends it. */
    method PollOnce(batch: seq<(Decision, Surroundings)>) returns (threw: bool)
      requires Valid()
      modifies this`launches, nonceStore, stateStore
      ensures var h := HandleBatch(old(Snapshot()), device, batch);
              && threw == h.threw && Snapshot() == h.state && launches == old(launches) + h.launches
    {
      hide HandleDecision;
      threw := false;
      for i := 0 to |batch|
        invariant var h := HandleBatch(old(Snapshot()), device, batch[..i]);
                  && !h.threw && Snapshot() == h.state && launches == old(launches) + h.launches
      {
        assert batch[..i + 1][..i] == batch[..i];
        threw := Handle(batch[i].0, batch[i].1);
        if threw {
          ThrowEndsBatch(old(Snapshot()), device, batch, i + 1);
          return true;
        }
      }
      assert batch[..|batch|] == batch;
    }

    /**
     * One turn of the polling loop. The watermark moves to the clock only when the poll answered and
     * the whole batch was handled; a failed cycle will ask for the same decisions again.
     */
    method Cycle(answer: Option<seq<(Decision, Surroundings)>>, clock: Ticks) returns (failed: bool)
      requires Valid()
      modifies this, nonceStore, stateStore
      ensures answer.None? ==> failed && Snapshot() == old(Snapshot()) && launches == old(launches)
      ensures answer.Some? ==>
                var h := HandleBatch(old(Snapshot()), device, answer.value);
                && failed == h.threw && Snapshot() == h.state && launches == old(launches) + h.launches
      ensures sinceUtc == NextWatermark(old(sinceUtc), failed, clock)
    {
      if answer.None? {
        return true;
      }
      failed := PollOnce(answer.value);
      if !failed {
        sinceUtc := clock;
      }
    }
  }

  lemma {:induction false} ThrowEndsBatch(s: State, device: string, batch: seq<(Decision, Surroundings)>, i: nat)
    requires i <= |batch| && HandleBatch(s, device, batch[..i]).threw
    ensures HandleBatch(s, device, batch) == HandleBatch(s, device, batch[..i])
    decreases |batch|
  {
    hide HandleDecision;
    if i == |batch| {
      assert batch[..i] == batch;
    } else {
      var last := |batch| - 1;
      assert batch[..last][..i] == batch[..i];
      ThrowEndsBatch(s, device, batch[..last], i);
    }
  }

  /**
   * A batch from the front: its first decision is handled, and if that did not throw, the rest in the
   * state it left. So decisions are handled in order, each once, up to the first exception.
   */
  lemma {:induction false} BatchFromTheFront(
      s: State, device: string, first: (Decision, Surroundings), rest: seq<(Decision, Surroundings)>)
    ensures HandleBatch(s, device, []) == Handled(s, [], false)
    ensures var h := HandleDecision(s, device, first.0, first.1);
            var after := HandleBatch(h.state, device, rest);
            HandleBatch(s, device, [first] + rest)
            == if h.threw then h else Handled(after.state, h.launches + after.launches, after.threw)
    decreases |rest|
  {
    hide HandleDecision;
    var all, h := [first] + rest, HandleDecision(s, device, first.0, first.1);
    if |rest| == 0 {
      assert all[..0] == [] && [] + h.launches == h.launches && h.launches + [] == h.launches;
    } else {
      var last := |rest| - 1;
      BatchFromTheFront(s, device, first, rest[..last]);
      assert all[..|all| - 1] == [first] + rest[..last];
      if !h.threw && !HandleBatch(h.state, device, rest[..last]).threw {
        var mid := HandleBatch(h.state, device, rest[..last]);
        var end := HandleDecision(mid.state, device, rest[last].0, rest[last].1);
        assert h.launches + mid.launches + end.launches == h.launches + (mid.launches + end.launches);
      }
    }
  }

  // ---------- submitting ----------

  /** What the tray is answered; `id` is None when the request was refused before it got one. */
  datatype PipeResponse = PipeResponse(success: bool, id: Option<string>, status: LocalStatus)

  /** What the machine and the backend answer to a submission, and the id it draws. */
  datatype Circumstances = Circumstances(
    drive: DriveClass, onDisk: bool, enrolled: bool, readable: bool, id: Uuid, sent: bool, noted: bool)

  class RequestCoordinator {
    const stateStore: RequestStateStore

    constructor (states: RequestStateStore)
      ensures stateStore == states
    {
      stateStore := states;
    }

    /**
     * Tracks an acceptable request as Pending under 32 digits before it is sent, and as Failed when
     * sending fails; anything unacceptable is answered and not tracked. None is an exception: no
     * credential, an unreadable file, or no audit row once it was sent.
     */
    method Submit(rawPath: string, reason: string, c: Circumstances) returns (response: Option<PipeResponse>)
      modifies stateStore
      ensures var path := CheckPath(rawPath, c.drive, c.onDisk);
              if IsBlank(reason) || path.None? then
                stateStore.requests == old(stateStore.requests) && response == Some(PipeResponse(false, None, Failed))
              else if !c.enrolled || !c.readable then
                stateStore.requests == old(stateStore.requests) && response.None?
              else
                var tracked := Tracked(path.value, if c.sent then Pending else Failed);
                && stateStore.requests == old(stateStore.requests)[Digits32(c.id) := tracked]
                && response == if !c.sent then Some(PipeResponse(false, Some(Digits32(c.id)), Failed))
                               else if c.noted then Some(PipeResponse(true, Some(Digits32(c.id)), Pending))
                               else None
    {
      BlankIsRefused(rawPath, c.drive, c.onDisk);
      if IsBlank(rawPath) || IsBlank(reason) {
        return Some(PipeResponse(false, None, Failed));
      }
      var path := CheckPath(rawPath, c.drive, c.onDisk);
      if path.None? {
        return Some(PipeResponse(false, None, Failed));
      }
      if !c.enrolled || !c.readable {
        return None;
      }
      stateStore.Add(Digits32(c.id), Tracked(path.value, Pending));
      if !c.sent {
        var threw := stateStore.UpdateStatus(Digits32(c.id), Failed);
        return Some(PipeResponse(false, Some(Digits32(c.id)), Failed));
      }
      if !c.noted {
        return None;
      }
      return Some(PipeResponse(true, Some(Digits32(c.id)), Pending));
    }
  }

  lemma BlankIsRefused(raw: string, drive: DriveClass, onDisk: bool)
    ensures IsBlank(raw) ==> CheckPath(raw, drive, onDisk).None?
  {
  }

  /** A submission is a run of single steps, in which what is tracked is what the coordinator leaves. */
  lemma SubmittingIsARun(s: State, device: string, raw: string, drive: DriveClass, onDisk: bool, id: Uuid, sent: bool)
    requires CheckPath(raw, drive, onDisk).Some?
    ensures var key, path := Digits32(id), CheckPath(raw, drive, onDisk).value;
            var steps := [Submit(key, raw, drive, onDisk)] + if sent then [] else [SubmitFailed(key)];
            Run(s, device, steps)
            == Some((s.(requests := s.requests[key := Tracked(path, if sent then Pending else Failed)]), []))
  {
    hide CheckPath;
    var key, path := Digits32(id), CheckPath(raw, drive, onDisk).value;
    var s1 := s.(requests := s.requests[key := Tracked(path, Pending)]);
    if sent {
      RunOne(s, device, Submit(key, raw, drive, onDisk));
      assert [Submit(key, raw, drive, onDisk)] + [] == [Submit(key, raw, drive, onDisk)];
    } else {
      assert s1.requests[key := Tracked(path, Failed)] == s.requests[key := Tracked(path, Failed)];
      RunOne(s1, device, SubmitFailed(key));
      RunCons(s, device, Submit(key, raw, drive, onDisk), [SubmitFailed(key)]);
    }
  }
}
