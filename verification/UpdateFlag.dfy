/** The "update now" flag of one device, over any sequence of requests and heartbeats of both routes. */
module UpdateFlag {
  import opened Common

  datatype Event =
    | RequestUpdate
    | AgentHeartbeat(version: Option<string>)
    | DashboardHeartbeat(version: Option<string>)

  datatype Flag = Flag(version: Option<string>, requested: bool, fromVersion: Option<string>)

  function Recorded(f: Flag, version: Option<string>): Flag {
    if version.Some? then f.(version := version) else f
  }

  /** The device row after the event, and the answer to an agent heartbeat. */
  function Step(f: Flag, e: Event): (Flag, bool) {
    match e
    case RequestUpdate => (f.(requested := true, fromVersion := f.version), false)
    case DashboardHeartbeat(version) => (Recorded(f, version), false)
    case AgentHeartbeat(version) =>
      var f' := Recorded(f, version);
      if f'.requested && version.Some? && version != f'.fromVersion
      then (f'.(requested := false, fromVersion := None), false)
      else (f', f'.requested)
  }

  function After(start: Flag, events: seq<Event>): Flag {
    if |events| == 0 then start else Step(After(start, events[..|events| - 1]), events[|events| - 1]).0
  }

  // ---------- what the flag means, said of the history alone ----------

  /** The version last reported, on either route. */
  function VersionAfter(start: Option<string>, events: seq<Event>): Option<string> {
    if |events| == 0 then start
    else
      var last := events[|events| - 1];
      if !last.RequestUpdate? && last.version.Some? then last.version
      else VersionAfter(start, events[..|events| - 1])
  }

  predicate ReportsOtherVersion(e: Event, snapshot: Option<string>) {
    e.AgentHeartbeat? && e.version.Some? && e.version != snapshot
  }

  /**
   * Event `r` is the latest request, and every version-bearing agent heartbeat since reported exactly
   * the version the device had when it was made.
   */
  predicate StillWanted(start: Option<string>, events: seq<Event>, r: nat)
    requires r < |events|
  {
    && events[r].RequestUpdate?
    && forall j :: r < j < |events| ==>
         !events[j].RequestUpdate? && !ReportsOtherVersion(events[j], VersionAfter(start, events[..r]))
  }

  predicate UpdatePending(start: Option<string>, events: seq<Event>) {
    exists r :: 0 <= r < |events| && StillWanted(start, events, r)
  }

  lemma StillWantedStep(start: Option<string>, events: seq<Event>, r: nat)
    requires r + 1 < |events|
    ensures StillWanted(start, events, r)
       <==> && StillWanted(start, events[..|events| - 1], r)
            && !events[|events| - 1].RequestUpdate?
            && !ReportsOtherVersion(events[|events| - 1], VersionAfter(start, events[..r]))
  {
    var last := |events| - 1;
    var before := events[..last];
    assert before[..r] == events[..r] && before[r] == events[r];
    if StillWanted(start, before, r) && !events[last].RequestUpdate?
       && !ReportsOtherVersion(events[last], VersionAfter(start, events[..r])) {
      forall j | r < j < |events|
        ensures !events[j].RequestUpdate? && !ReportsOtherVersion(events[j], VersionAfter(start, events[..r]))
      {
        if j < last {
          assert before[j] == events[j];
        }
      }
    }
    if StillWanted(start, events, r) {
      forall j | r < j < last
        ensures !before[j].RequestUpdate? && !ReportsOtherVersion(before[j], VersionAfter(start, before[..r]))
      {
        assert before[j] == events[j];
      }
    }
  }

  /** The flag is a summary of the history: its version, whether an update is pending, and its snapshot. */
  ghost predicate Summarizes(start: Flag, events: seq<Event>, f: Flag) {
    && f.version == VersionAfter(start.version, events)
    && (f.requested <==> UpdatePending(start.version, events))
    && (!f.requested ==> f.fromVersion.None? || f.fromVersion == start.fromVersion)
    && (forall r :: 0 <= r < |events| && StillWanted(start.version, events, r)
          ==> f.fromVersion == VersionAfter(start.version, events[..r]))
  }

  lemma RequestSummarized(start: Flag, before: seq<Event>, f: Flag)
    requires Summarizes(start, before, f)
    ensures Summarizes(start, before + [RequestUpdate], Step(f, RequestUpdate).0)
  {
    var events := before + [RequestUpdate];
    assert events[..|before|] == before;
    assert StillWanted(start.version, events, |before|);
    forall r | 0 <= r < |events| && StillWanted(start.version, events, r) ensures r == |before| {
      if r < |before| {
        StillWantedStep(start.version, events, r);
      }
    }
  }

  lemma HeartbeatSummarized(start: Flag, before: seq<Event>, f: Flag, e: Event)
    requires Summarizes(start, before, f) && !e.RequestUpdate?
    ensures Summarizes(start, before + [e], Step(f, e).0)
  {
    var events := before + [e];
    assert events[..|before|] == before && !events[|before|].RequestUpdate?;
    var f' := Step(f, e).0;
    forall r | 0 <= r < |before|
      ensures StillWanted(start.version, events, r)
         <==> StillWanted(start.version, before, r) && !ReportsOtherVersion(e, VersionAfter(start.version, before[..r]))
      ensures events[..r] == before[..r]
    {
      assert events[..r] == before[..r];
      StillWantedStep(start.version, events, r);
    }
    if UpdatePending(start.version, before) {
      var r :| 0 <= r < |before| && StillWanted(start.version, before, r);
      assert f.fromVersion == VersionAfter(start.version, before[..r]);
      assert StillWanted(start.version, events, r) <==> !ReportsOtherVersion(e, f.fromVersion);
    }
  }

  lemma {:induction false} FlagSummarizesHistory(start: Flag, events: seq<Event>)
    requires !start.requested
    ensures Summarizes(start, events, After(start, events))
  {
    if |events| > 0 {
      var before, e := events[..|events| - 1], events[|events| - 1];
      FlagSummarizesHistory(start, before);
      assert before + [e] == events;
      if e.RequestUpdate? {
        RequestSummarized(start, before, After(start, before));
      } else {
        HeartbeatSummarized(start, before, After(start, before), e);
      }
    }
  }

  /**
   * An agent heartbeat is answered "update requested" exactly when an update was requested and every
   * version-bearing agent heartbeat since the latest request, this one included, reported the version
   * of that moment; heartbeats of the other route change nothing about it.
   */
  lemma AnswerIff(start: Flag, events: seq<Event>, version: Option<string>)
    requires !start.requested
    ensures Step(After(start, events), AgentHeartbeat(version)).1
       <==> UpdatePending(start.version, events + [AgentHeartbeat(version)])
  {
    var all := events + [AgentHeartbeat(version)];
    FlagSummarizesHistory(start, all);
    assert all[..|events|] == events;
  }

  // ---------- the device row and its handlers ----------

  class Device {
    var agentVersion: Option<string>
    var lastSeen: Option<int>
    var updateRequestedAt: Option<int>
    var updateRequestedFromVersion: Option<string>

    ghost function View(): Flag
      reads this
    {
      Flag(agentVersion, updateRequestedAt.Some?, updateRequestedFromVersion)
    }

    constructor (version: Option<string>)
      ensures View() == Flag(version, false, None) && lastSeen == None
    {
      agentVersion, lastSeen, updateRequestedAt, updateRequestedFromVersion := version, None, None, None;
    }

    method RecordHeartbeat(seenAt: int, version: Option<string>)
      modifies this`agentVersion, this`lastSeen
      ensures View() == Recorded(old(View()), version) && lastSeen == Some(seenAt)
    {
      lastSeen := Some(seenAt);
      if version.Some? {
        agentVersion := version;
      }
    }

    method RequestDeviceUpdate(now: int)
      modifies this`updateRequestedAt, this`updateRequestedFromVersion
      ensures View() == Step(old(View()), RequestUpdate).0 && updateRequestedAt == Some(now)
    {
      updateRequestedAt, updateRequestedFromVersion := Some(now), agentVersion;
    }

    method HandleDashboardHeartbeat(now: int, version: Option<string>)
      modifies this`agentVersion, this`lastSeen
      ensures View() == Step(old(View()), DashboardHeartbeat(version)).0 && lastSeen == Some(now)
    {
      RecordHeartbeat(now, version);
    }

    method HandleAgentHeartbeat(now: int, version: Option<string>) returns (updateRequested: bool)
      modifies this
      ensures (View(), updateRequested) == Step(old(View()), AgentHeartbeat(version)) && lastSeen == Some(now)
    {
      RecordHeartbeat(now, version);
      updateRequested := updateRequestedAt.Some?;
      if updateRequested && version.Some? && version != updateRequestedFromVersion {
        updateRequestedAt, updateRequestedFromVersion := None, None;
        updateRequested := false;
      }
    }
  }
}
