/** Which submission on the machine itself each launch leads back to. */
module SystemHistory {
  import opened Common
  import opened WindowsPaths
  import opened System
  import TokenValidation
  import A = Agent
  import Theorems = SystemTheorems

  predicate IsRestartOf(e: Event, d: Uuid) {
    e.OfAgent? && e.agent == d && e.action.Restart?
  }

  /** Agent `d` submits `request` for the path of an installer, there on a fixed drive, in some spelling. */
  predicate IsSubmissionOf(e: Event, d: Uuid, request: string, path: string) {
    && e.OfAgent? && e.agent == d && e.action.Submit? && e.action.request == request
    && Canonicalize(e.action.rawPath) == Some(path)
    && e.action.drive == Fixed && e.action.onDisk && A.IsInstaller(path)
  }

  predicate IsRereadOf(e: Event, d: Uuid) {
    e.OfAgent? && e.agent == d && e.action.Rehash?
  }

  /** Agent `d` reads the file again, there on a fixed drive, and finds this hash. */
  predicate FindsHash(e: Event, d: Uuid, hash: string) {
    IsRereadOf(e, d) && e.action.drive == Fixed && e.action.onDisk && e.action.hash == hash
  }

  predicate NoRestartFrom(events: seq<Event>, d: Uuid, k: nat) {
    forall j :: k <= j < |events| ==> !IsRestartOf(events[j], d)
  }

  /** The submission happened in the agent's present life. */
  ghost predicate SubmittedSince(events: seq<Event>, d: Uuid, request: string, path: string) {
    exists k :: 0 <= k < |events| && IsSubmissionOf(events[k], d, request, path) && NoRestartFrom(events, d, k)
  }

  /** Since then nothing was submitted and read again: the file was last read, with this hash, after it. */
  ghost predicate RereadSince(events: seq<Event>, d: Uuid, request: string, path: string, hash: string) {
    exists r :: 0 <= r < |events| && FindsHash(events[r], d, hash) && NoRereadFrom(events, d, r + 1)
                && NoRestartFrom(events, d, r) && SubmittedSince(events[..r], d, request, path)
  }

  predicate NoRereadFrom(events: seq<Event>, d: Uuid, k: nat) {
    forall j :: k <= j < |events| ==> !IsRereadOf(events[j], d)
  }

  ghost predicate TaskTraced(events: seq<Event>, d: Uuid, task: A.Task) {
    match task
    case Handling(request, path, _) => SubmittedSince(events, d, request, path)
    case Hashed(request, tracked, _, hash, _) => RereadSince(events, d, request, tracked, hash)
    case Admitted(l) => RereadSince(events, d, l.request, l.tracked, l.hash)
    case Cleared(l) => RereadSince(events, d, l.request, l.tracked, l.hash)
    case _ => true
  }

  /** All the agent holds in memory was submitted since it started. */
  ghost predicate AgentTraced(events: seq<Event>, d: Uuid, s: A.State) {
    && (forall r :: r in s.requests ==> SubmittedSince(events, d, r, s.requests[r].path))
    && TaskTraced(events, d, s.task)
  }

  lemma SubmissionStays(events: seq<Event>, e: Event, d: Uuid, request: string, path: string)
    requires SubmittedSince(events, d, request, path) && !IsRestartOf(e, d)
    ensures SubmittedSince(events + [e], d, request, path)
  {
    hide IsSubmissionOf;
    hide IsRestartOf;
    var k :| 0 <= k < |events| && IsSubmissionOf(events[k], d, request, path) && NoRestartFrom(events, d, k);
    assert (events + [e])[k] == events[k];
    assert NoRestartFrom(events + [e], d, k);
  }

  lemma RereadStays(events: seq<Event>, e: Event, d: Uuid, request: string, path: string, hash: string)
    requires RereadSince(events, d, request, path, hash) && !IsRestartOf(e, d) && !IsRereadOf(e, d)
    ensures RereadSince(events + [e], d, request, path, hash)
  {
    hide FindsHash;
    hide IsRereadOf;
    hide IsRestartOf;
    hide SubmittedSince;
    var r :| 0 <= r < |events| && FindsHash(events[r], d, hash) && NoRereadFrom(events, d, r + 1)
             && NoRestartFrom(events, d, r) && SubmittedSince(events[..r], d, request, path);
    var all := events + [e];
    assert all[r] == events[r] && all[..r] == events[..r];
    assert NoRereadFrom(all, d, r + 1) && NoRestartFrom(all, d, r);
  }

  lemma NowReread(events: seq<Event>, d: Uuid, request: string, path: string, action: A.Event)
    requires SubmittedSince(events, d, request, path) && action.Rehash?
    requires A.CheckPath(path, action.drive, action.onDisk).Some?
    ensures RereadSince(events + [OfAgent(d, action)], d, request, path, action.hash)
  {
    hide SubmittedSince;
    hide A.CheckPath;
    var all, r := events + [OfAgent(d, action)], |events|;
    A.CheckPathIff(path, action.drive, action.onDisk, A.CheckPath(path, action.drive, action.onDisk).value);
    assert FindsHash(all[r], d, action.hash) && all[..r] == events;
    assert NoRereadFrom(all, d, r + 1) && NoRestartFrom(all, d, r);
  }

  lemma TraceStays(events: seq<Event>, e: Event, d: Uuid, s: A.State)
    requires AgentTraced(events, d, s) && !IsRestartOf(e, d) && !IsRereadOf(e, d)
    ensures AgentTraced(events + [e], d, s)
  {
    hide SubmittedSince;
    hide RereadSince;
    hide IsRestartOf;
    hide IsRereadOf;
    forall request, path | SubmittedSince(events, d, request, path)
      ensures SubmittedSince(events + [e], d, request, path)
    {
      SubmissionStays(events, e, d, request, path);
    }
    forall request, path, hash | RereadSince(events, d, request, path, hash)
      ensures RereadSince(events + [e], d, request, path, hash)
    {
      RereadStays(events, e, d, request, path, hash);
    }
  }

  lemma NowSubmitted(events: seq<Event>, d: Uuid, action: A.Event)
    requires action.Submit? && A.CheckPath(action.rawPath, action.drive, action.onDisk).Some?
    ensures SubmittedSince(events + [OfAgent(d, action)], d, action.request,
                           A.CheckPath(action.rawPath, action.drive, action.onDisk).value)
  {
    hide A.CheckPath;
    var path := A.CheckPath(action.rawPath, action.drive, action.onDisk).value;
    A.CheckPathIff(action.rawPath, action.drive, action.onDisk, path);
    var all := events + [OfAgent(d, action)];
    assert IsSubmissionOf(all[|events|], d, action.request, path) && NoRestartFrom(all, d, |events|);
  }

  lemma RequestsTraced(events: seq<Event>, e: Event, d: Uuid, requests: map<string, A.Tracked>)
    requires forall r :: r in requests ==> SubmittedSince(events, d, r, requests[r].path)
    requires !IsRestartOf(e, d)
    ensures forall r :: r in requests ==> SubmittedSince(events + [e], d, r, requests[r].path)
  {
    hide SubmittedSince;
    hide IsRestartOf;
    forall r | r in requests ensures SubmittedSince(events + [e], d, r, requests[r].path) {
      SubmissionStays(events, e, d, r, requests[r].path);
    }
  }

  lemma AgentStepKeepsTrace(events: seq<Event>, d: Uuid, s: A.State, action: A.Event)
    requires AgentTraced(events, d, s) && A.Next(s, Hyphenated(d), action).Some?
    ensures AgentTraced(events + [OfAgent(d, action)], d, A.Next(s, Hyphenated(d), action).value.0)
  {
    hide SubmittedSince;
    hide RereadSince;
    hide A.CheckPath;
    hide TokenValidation.Admission;
    hide TokenValidation.Spend;
    hide Hyphenated;
    if action.Rehash? {
      RequestsTraced(events, OfAgent(d, action), d, s.requests);
      if A.CheckPath(s.task.path, action.drive, action.onDisk).Some? {
        NowReread(events, d, s.task.request, s.task.path, action);
      }
    } else if !action.Restart? {
      TraceStays(events, OfAgent(d, action), d, s);
      if action.Submit? {
        NowSubmitted(events, d, action);
      }
    }
  }

  /** Every agent's memory is accounted for by the run so far. */
  lemma {:induction false} MemoryIsTraced(start: World, events: seq<Event>, d: Uuid)
    requires IsInitial(start) && Run(start, events).Some? && d in Run(start, events).value.agents
    ensures AgentTraced(events, d, Run(start, events).value.agents[d])
    decreases |events|
  {
    if |events| > 0 {
      var before, e := events[..|events| - 1], events[|events| - 1];
      var w := Run(start, before).value;
      assert events == before + [e];
      MemoryIsTraced(start, before, d);
      hide AgentTraced;
      hide A.Next;
      hide IsInitial;
      if e.OfAgent? && e.agent == d {
        AgentStepKeepsTrace(before, d, w.agents[d], e.action);
      } else {
        TraceStays(before, e, d, w.agents[d]);
      }
    }
  }

  lemma NewLaunch(w: World, e: Event)
    requires Next(w, e).Some? && Next(w, e).value.launches != w.launches
    ensures e.OfAgent? && e.agent in w.agents && w.agents[e.agent].task.Cleared?
    ensures e == OfAgent(e.agent, A.Start(true))
    ensures Next(w, e).value.launches == w.launches + [Launched(e.agent, w.agents[e.agent].task.launch)]
  {
    hide A.CheckPath;
    hide TokenValidation.Admission;
    hide TokenValidation.Spend;
    hide Hyphenated;
  }

  /** Event `j` is the start of launch `i`. */
  predicate Starts(start: World, events: seq<Event>, i: nat, j: nat)
    requires Run(start, events).Some? && i < |Run(start, events).value.launches| && j < |events|
  {
    var launches := Run(start, events).value.launches;
    && events[j] == OfAgent(launches[i].agent, A.Start(true))
    && Run(start, events[..j]).Some? && Run(start, events[..j]).value.launches == launches[..i]
    && Run(start, events[..j + 1]).Some? && Run(start, events[..j + 1]).value.launches == launches[..i + 1]
  }

  lemma {:induction false} LaunchStarts(start: World, events: seq<Event>, i: nat) returns (j: nat)
    requires IsInitial(start) && Run(start, events).Some? && i < |Run(start, events).value.launches|
    ensures j < |events| && Starts(start, events, i, j)
    ensures var x := Run(start, events).value.launches[i];
            RereadSince(events[..j], x.agent, x.launch.request, x.launch.tracked, x.launch.hash)
    decreases |events|
  {
    hide Next;
    hide RereadSince;
    var last := |events| - 1;
    var before, e := events[..last], events[last];
    var w, w' := Run(start, before).value, Run(start, events).value;
    if w'.launches != w.launches {
      NewLaunch(w, e);
    }
    if i < |w.launches| {
      j := LaunchStarts(start, before, i);
      assert before[..j] == events[..j] && before[..j + 1] == events[..j + 1];
      assert w.launches[..i] == w'.launches[..i] && w.launches[..i + 1] == w'.launches[..i + 1];
    } else {
      j := last;
      MemoryIsTraced(start, before, e.agent);
      assert events[..last + 1] == events;
      assert w'.launches[..i] == w.launches && w'.launches[..i + 1] == w'.launches;
    }
  }

  /**
   * Every launch leads back to two events on the same machine, after its agent last started: it submitted
   * that request for an installer there on a fixed drive, in a spelling whose canonical form is the path
   * launched; and later, when it last read a file before the launch, that path passed the check again, on
   * a fixed drive, and had the hash of the launch.
   */
  lemma EveryLaunchWasSubmitted(start: World, events: seq<Event>, i: nat) returns (k: nat, r: nat, j: nat)
    requires IsInitial(start) && Run(start, events).Some? && i < |Run(start, events).value.launches|
    ensures k < r < j < |events| && Starts(start, events, i, j)
    ensures var x := Run(start, events).value.launches[i];
            && IsSubmissionOf(events[k], x.agent, x.launch.request, x.launch.path)
            && FindsHash(events[r], x.agent, x.launch.hash)
            && (forall n :: k < n < j ==> !IsRestartOf(events[n], x.agent))
            && (forall n :: r < n < j ==> !IsRereadOf(events[n], x.agent))
  {
    hide Run;
    hide IsSubmissionOf;
    hide IsRestartOf;
    hide IsRereadOf;
    hide FindsHash;
    hide Starts;
    hide IsInitial;
    var x := Run(start, events).value.launches[i];
    j := LaunchStarts(start, events, i);
    Theorems.EveryLaunchIsAuthorized(start, events, i);
    var id: Uuid :| Authorized(Run(start, events).value.backend.db, x.agent, x.launch, id);
    k, r := WasReread(events[..j], x.agent, x.launch.request, x.launch.tracked, x.launch.hash);
    forall n | k < n < j ensures !IsRestartOf(events[n], x.agent) {
      assert events[..j][n] == events[n];
    }
    forall n | r < n < j ensures !IsRereadOf(events[n], x.agent) {
      assert events[..j][n] == events[n];
    }
  }

  lemma WasReread(events: seq<Event>, d: Uuid, request: string, path: string, hash: string) returns (k: nat, r: nat)
    requires RereadSince(events, d, request, path, hash)
    ensures k < r < |events| && IsSubmissionOf(events[k], d, request, path) && FindsHash(events[r], d, hash)
    ensures forall n :: k < n < |events| ==> !IsRestartOf(events[n], d)
    ensures forall n :: r < n < |events| ==> !IsRereadOf(events[n], d)
  {
    hide IsSubmissionOf;
    hide FindsHash;
    hide IsRestartOf;
    hide IsRereadOf;
    r :| 0 <= r < |events| && FindsHash(events[r], d, hash) && NoRereadFrom(events, d, r + 1)
         && NoRestartFrom(events, d, r) && SubmittedSince(events[..r], d, request, path);
    k :| 0 <= k < r && IsSubmissionOf(events[..r][k], d, request, path) && NoRestartFrom(events[..r], d, k);
    forall n | k < n < r ensures !IsRestartOf(events[n], d) {
      assert events[..r][n] == events[n];
    }
  }
}
