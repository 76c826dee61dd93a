/**
 * Double-checked enrollment: `GetOrCreateAsync` called by any number of callers at once, with enroll
 * calls and file writes that may fail at any point, cancellations and process restarts.
 */
module Enrollment {
  import opened Common

  datatype Credential = Credential(device: string, token: string)

  /** The credential file. A write that a crash cut short leaves a file that cannot be read back. */
  datatype File = Absent | Torn | Stored(credential: Credential)

  datatype Caller =
    | Called
    | Waiting
    | Locked
    | Checked
    | Loading
    | Enrolling
    | Enrolled(credential: Credential)
    | Saved(credential: Credential)

  /** `returned` are the credentials successful calls have given out; `enrollments` counts enroll calls. */
  datatype State = State(
    file: File, cached: Option<Credential>, holder: Option<nat>, callers: map<nat, Caller>,
    returned: set<Credential>, enrollments: nat)

  datatype Event =
    | Call(c: nat)
    | FastPath(c: nat)
    | Acquire(c: nat)
    | RecheckCache(c: nat)
    | LookForFile(c: nat)
    | Load(c: nat)
    | CallEnroll(c: nat, answer: Option<Credential>)
    | Save(c: nat, written: bool, torn: bool)
    | Finish(c: nat)
    | Fail(c: nat)
    | Restart

  predicate InCriticalSection(p: Caller) {
    !p.Called? && !p.Waiting?
  }

  function Goes(s: State, c: nat, p: Caller): State {
    s.(callers := s.callers[c := p])
  }

  /** The caller leaves, releasing the semaphore if it held it. */
  function Leaves(s: State, c: nat): State {
    s.(callers := s.callers - {c}, holder := if s.holder == Some(c) then None else s.holder)
  }

  function Returns(s: State, c: nat, credential: Credential): State {
    Leaves(s.(returned := s.returned + {credential}), c)
  }

  predicate At(s: State, c: nat, p: Caller) {
    c in s.callers && s.callers[c] == p
  }

  function Next(s: State, e: Event): Option<State> {
    match e
    case Call(c) => if c in s.callers then None else Some(Goes(s, c, Called))
    case FastPath(c) =>
      if !At(s, c, Called) then None
      else if s.cached.Some? then Some(Returns(s, c, s.cached.value))
      else Some(Goes(s, c, Waiting))
    case Acquire(c) =>
      if At(s, c, Waiting) && s.holder.None? then Some(Goes(s.(holder := Some(c)), c, Locked)) else None
    case RecheckCache(c) =>
      if !At(s, c, Locked) then None
      else if s.cached.Some? then Some(Returns(s, c, s.cached.value))
      else Some(Goes(s, c, Checked))
    case LookForFile(c) =>
      if !At(s, c, Checked) then None
      else Some(Goes(s, c, if s.file.Absent? then Enrolling else Loading))
    case Load(c) =>
      if !At(s, c, Loading) then None
      else if s.file.Stored? then Some(Returns(s.(cached := Some(s.file.credential)), c, s.file.credential))
      else Some(Leaves(s, c))
    case CallEnroll(c, answer) =>
      if !At(s, c, Enrolling) then None
      else
        var called := s.(enrollments := s.enrollments + 1);
        if answer.None? then Some(Leaves(called, c)) else Some(Goes(called, c, Enrolled(answer.value)))
    case Save(c, written, torn) =>
      if !(c in s.callers && s.callers[c].Enrolled?) then None
      else if written
      then Some(Goes(s.(file := Stored(s.callers[c].credential)), c, Saved(s.callers[c].credential)))
      else Some(Leaves(s.(file := if torn then Torn else s.file), c))
    case Finish(c) =>
      if !(c in s.callers && s.callers[c].Saved?) then None
      else Some(Returns(s.(cached := Some(s.callers[c].credential)), c, s.callers[c].credential))
    case Fail(c) => if c in s.callers then Some(Leaves(s, c)) else None
    case Restart => Some(s.(cached := None, holder := None, callers := map[]))
  }

  function Run(s: State, events: seq<Event>): Option<State>
    decreases |events|
  {
    if |events| == 0 then Some(s)
    else
      match Run(s, events[..|events| - 1])
      case None => None
      case Some(mid) => Next(mid, events[|events| - 1])
  }

  /** A machine that was never enrolled, was enrolled before, or crashed while it saved its credential. */
  function Machine(file: File): State {
    State(file, None, None, map[], {}, 0)
  }

  /** The caller holds the lock and has found, under it, that nothing is cached. */
  predicate PastRecheck(p: Caller) {
    p.Checked? || p.Loading? || p.Enrolling? || p.Enrolled? || p.Saved?
  }

  ghost predicate Inv(s: State) {
    && (forall c :: c in s.callers && InCriticalSection(s.callers[c]) ==> s.holder == Some(c))
    && (s.holder.Some? ==> s.holder.value in s.callers && InCriticalSection(s.callers[s.holder.value]))
    && (forall c :: c in s.callers && (s.callers[c].Enrolling? || s.callers[c].Enrolled?) ==> s.file.Absent?)
    && (forall c :: c in s.callers && PastRecheck(s.callers[c]) ==> s.cached.None?)
    && (forall c :: c in s.callers && s.callers[c].Saved? ==> s.file == Stored(s.callers[c].credential))
    && (s.cached.Some? ==> s.file == Stored(s.cached.value))
    && (forall x :: x in s.returned ==> s.file == Stored(x))
  }

  lemma AcquireKeepsInv(s: State, c: nat)
    requires Inv(s) && Next(s, Acquire(c)).Some?
    ensures Inv(Next(s, Acquire(c)).value)
  {
  }

  lemma LoadKeepsInv(s: State, c: nat)
    requires Inv(s) && Next(s, Load(c)).Some?
    ensures Inv(Next(s, Load(c)).value)
  {
  }

  lemma CallEnrollKeepsInv(s: State, c: nat, answer: Option<Credential>)
    requires Inv(s) && Next(s, CallEnroll(c, answer)).Some?
    ensures Inv(Next(s, CallEnroll(c, answer)).value)
  {
  }

  lemma SaveKeepsInv(s: State, c: nat, written: bool, torn: bool)
    requires Inv(s) && Next(s, Save(c, written, torn)).Some?
    ensures Inv(Next(s, Save(c, written, torn)).value)
  {
  }

  lemma FinishKeepsInv(s: State, c: nat)
    requires Inv(s) && Next(s, Finish(c)).Some?
    ensures Inv(Next(s, Finish(c)).value)
  {
  }

  lemma LookKeepsInv(s: State, c: nat)
    requires Inv(s)
    ensures forall e ::
              e in {Call(c), FastPath(c), RecheckCache(c), LookForFile(c), Fail(c), Restart} && Next(s, e).Some?
              ==> Inv(Next(s, e).value)
  {
  }

  lemma NextKeepsInv(s: State, e: Event)
    requires Inv(s) && Next(s, e).Some?
    ensures Inv(Next(s, e).value)
  {
    hide Inv;
    hide Next;
    match e
    case Acquire(c) => AcquireKeepsInv(s, c);
    case Load(c) => LoadKeepsInv(s, c);
    case CallEnroll(c, answer) => CallEnrollKeepsInv(s, c, answer);
    case Save(c, written, torn) => SaveKeepsInv(s, c, written, torn);
    case Finish(c) => FinishKeepsInv(s, c);
    case Restart => LookKeepsInv(s, 0);
    case _ => LookKeepsInv(s, e.c);
  }

  /** Once a call has returned, the file is there to stay and nobody enrolls any more. */
  lemma NoEnrollmentAfterReturn(s: State, e: Event)
    requires Inv(s) && Next(s, e).Some?
    ensures s.returned <= Next(s, e).value.returned
    ensures s.returned != {} ==> Next(s, e).value.enrollments == s.enrollments
  {
  }

  lemma {:induction false} RunKeepsInv(s: State, events: seq<Event>)
    requires Inv(s) && Run(s, events).Some?
    ensures Inv(Run(s, events).value)
    ensures s.returned <= Run(s, events).value.returned
    ensures s.returned != {} ==> Run(s, events).value.enrollments == s.enrollments
    decreases |events|
  {
    hide Inv;
    hide Next;
    if |events| > 0 {
      var before := events[..|events| - 1];
      RunKeepsInv(s, before);
      NextKeepsInv(Run(s, before).value, events[|events| - 1]);
      NoEnrollmentAfterReturn(Run(s, before).value, events[|events| - 1]);
    }
  }

  /** All successful calls, of all callers and all lives of the process, return one and the same credential. */
  lemma OneCredentialForAll(file: File, events: seq<Event>, x: Credential, y: Credential)
    requires Run(Machine(file), events).Some?
    requires x in Run(Machine(file), events).value.returned && y in Run(Machine(file), events).value.returned
    ensures x == y
  {
    RunKeepsInv(Machine(file), events);
  }

  /** From the first successful return on, no enroll call is made in any continuation. */
  lemma EnrollmentEndsWithTheFirstReturn(file: File, before: seq<Event>, after: seq<Event>)
    requires Run(Machine(file), before).Some? && Run(Machine(file), before).value.returned != {}
    requires Run(Run(Machine(file), before).value, after).Some?
    ensures Run(Run(Machine(file), before).value, after).value.enrollments
         == Run(Machine(file), before).value.enrollments
  {
    RunKeepsInv(Machine(file), before);
    RunKeepsInv(Run(Machine(file), before).value, after);
  }

  // ---------- a call that nothing disturbs ----------

  lemma OneMore(s: State, events: seq<Event>, mid: State, e: Event, end: State)
    requires Run(s, events) == Some(mid) && Next(mid, e) == Some(end)
    ensures Run(s, events + [e]) == Some(end)
  {
    hide Next;
    assert (events + [e])[..|events|] == events;
  }

  /** The call stands at this point, holding the lock, or not yet holding it. */
  function Standing(s: State, c: nat, p: Caller): State {
    s.(callers := s.callers[c := p], holder := if InCriticalSection(p) then Some(c) else s.holder)
  }

  lemma CallSteps(s: State, c: nat)
    requires c !in s.callers && s.holder != Some(c)
    ensures Run(s, [Call(c)]) == Some(Standing(s, c, Called))
    ensures s.cached.Some? ==>
              Run(s, [Call(c)] + [FastPath(c)]) == Some(s.(returned := s.returned + {s.cached.value}))
    ensures s.cached.None? ==> Run(s, [Call(c)] + [FastPath(c)]) == Some(Standing(s, c, Waiting))
  {
    assert [Call(c)][..0] == [];
    assert Run(s, []) == Some(s);
    OneMore(s, [], s, Call(c), Standing(s, c, Called));
    assert [] + [Call(c)] == [Call(c)];
    assert s.callers[c := Called][c := Waiting] == s.callers[c := Waiting];
    if s.cached.Some? {
      assert s.callers[c := Called] - {c} == s.callers;
      OneMore(s, [Call(c)], Standing(s, c, Called), FastPath(c), s.(returned := s.returned + {s.cached.value}));
    } else {
      OneMore(s, [Call(c)], Standing(s, c, Called), FastPath(c), Standing(s, c, Waiting));
    }
  }

  /** With a cached credential a call returns it at once. */
  lemma CachedCallReturns(s: State, c: nat)
    requires Inv(s) && c !in s.callers && s.cached.Some?
    ensures Run(s, [Call(c)] + [FastPath(c)]) == Some(s.(returned := s.returned + {s.cached.value}))
  {
    CallSteps(s, c);
  }

  function StepsToFile(c: nat): seq<Event> {
    [Call(c)] + [FastPath(c)] + [Acquire(c)] + [RecheckCache(c)] + [LookForFile(c)]
  }

  lemma StandsStill(s: State, c: nat, p: Caller, q: Caller)
    ensures s.callers[c := p][c := q] == s.callers[c := q]
    ensures c !in s.callers ==> s.callers[c := p] - {c} == s.callers
  {
  }

  lemma ReachesTheFile(s: State, c: nat)
    requires c !in s.callers && s.cached.None? && s.holder.None?
    ensures Run(s, StepsToFile(c)) == Some(Standing(s, c, if s.file.Absent? then Enrolling else Loading))
  {
    CallSteps(s, c);
    hide Run;
    StandsStill(s, c, Waiting, Locked);
    StandsStill(s, c, Locked, Checked);
    var p := if s.file.Absent? then Enrolling else Loading;
    StandsStill(s, c, Checked, p);
    OneMore(s, [Call(c)] + [FastPath(c)], Standing(s, c, Waiting), Acquire(c), Standing(s, c, Locked));
    OneMore(s, [Call(c)] + [FastPath(c)] + [Acquire(c)], Standing(s, c, Locked), RecheckCache(c),
            Standing(s, c, Checked));
    OneMore(s, [Call(c)] + [FastPath(c)] + [Acquire(c)] + [RecheckCache(c)], Standing(s, c, Checked), LookForFile(c),
            Standing(s, c, p));
  }

  /** After a restart a call reads the credential file, caches what is in it and returns that; a torn one fails it. */
  lemma StoredCallReturns(s: State, c: nat)
    requires c !in s.callers && s.cached.None? && s.holder.None?
    ensures s.file.Stored? ==>
              Run(s, StepsToFile(c) + [Load(c)])
              == Some(s.(cached := Some(s.file.credential), returned := s.returned + {s.file.credential}))
    ensures s.file.Torn? ==> Run(s, StepsToFile(c) + [Load(c)]) == Some(s)
  {
    ReachesTheFile(s, c);
    hide Run;
    hide StepsToFile;
    StandsStill(s, c, Loading, Loading);
    if s.file.Stored? {
      OneMore(s, StepsToFile(c), Standing(s, c, Loading), Load(c),
              s.(cached := Some(s.file.credential), returned := s.returned + {s.file.credential}));
    } else if s.file.Torn? {
      OneMore(s, StepsToFile(c), Standing(s, c, Loading), Load(c), s);
    }
  }

  /** On a machine that was never enrolled a call enrolls once, saves, caches and returns what it was given. */
  lemma FirstCallEnrolls(s: State, c: nat, x: Credential)
    requires c !in s.callers && s.cached.None? && s.holder.None? && s.file.Absent?
    ensures Run(s, StepsToFile(c) + [CallEnroll(c, Some(x))] + [Save(c, true, false)] + [Finish(c)])
         == Some(s.(file := Stored(x), cached := Some(x), returned := s.returned + {x},
                    enrollments := s.enrollments + 1))
  {
    ReachesTheFile(s, c);
    hide Run;
    hide StepsToFile;
    StandsStill(s, c, Enrolling, Enrolled(x));
    StandsStill(s, c, Enrolled(x), Saved(x));
    StandsStill(s, c, Saved(x), Saved(x));
    var s1 := s.(enrollments := s.enrollments + 1);
    var s2 := s1.(file := Stored(x));
    OneMore(s, StepsToFile(c), Standing(s, c, Enrolling), CallEnroll(c, Some(x)), Standing(s1, c, Enrolled(x)));
    OneMore(s, StepsToFile(c) + [CallEnroll(c, Some(x))], Standing(s1, c, Enrolled(x)), Save(c, true, false),
            Standing(s2, c, Saved(x)));
    OneMore(s, StepsToFile(c) + [CallEnroll(c, Some(x))] + [Save(c, true, false)], Standing(s2, c, Saved(x)), Finish(c),
            s2.(cached := Some(x), returned := s.returned + {x}));
  }

  /** A restart drops the cache, the lock and every call, and keeps the file: the next call returns what it holds. */
  lemma RestartKeepsTheFile(s: State, c: nat, x: Credential)
    requires s.file == Stored(x)
    ensures Run(s, [Restart]) == Some(State(Stored(x), None, None, map[], s.returned, s.enrollments))
    ensures Run(Run(s, [Restart]).value, StepsToFile(c) + [Load(c)])
         == Some(State(Stored(x), Some(x), None, map[], s.returned + {x}, s.enrollments))
  {
    assert [Restart][..0] == [];
    OneMore(s, [], s, Restart, State(Stored(x), None, None, map[], s.returned, s.enrollments));
    assert [] + [Restart] == [Restart];
    StoredCallReturns(State(Stored(x), None, None, map[], s.returned, s.enrollments), c);
  }

  /** A call that waited for the lock while another one enrolled returns what that one cached. */
  lemma WaiterGetsTheCache(s: State, c: nat)
    requires At(s, c, Waiting) && s.holder.None? && s.cached.Some?
    ensures Run(s, [Acquire(c)] + [RecheckCache(c)])
         == Some(s.(callers := s.callers - {c}, returned := s.returned + {s.cached.value}))
  {
    var s1 := s.(callers := s.callers[c := Locked], holder := Some(c));
    assert [Acquire(c)][..0] == [];
    OneMore(s, [], s, Acquire(c), s1);
    assert [] + [Acquire(c)] == [Acquire(c)];
    assert s.callers[c := Locked] - {c} == s.callers - {c};
    OneMore(s, [Acquire(c)], s1, RecheckCache(c),
            s.(callers := s.callers - {c}, returned := s.returned + {s.cached.value}));
  }

  /** And one that waited for a call which failed or was cancelled goes on itself. */
  lemma FailureFreesTheLock(s: State, c: nat, d: nat)
    requires Inv(s) && c != d && At(s, d, Waiting) && c in s.callers && InCriticalSection(s.callers[c])
    ensures Next(s, Acquire(d)).None?
    ensures Next(s, Fail(c)).Some? && Next(Next(s, Fail(c)).value, Acquire(d)).Some?
  {
  }
}
