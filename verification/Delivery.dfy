/**
 * Which decisions an agent is ever told: the polling cycles of one agent, each with its watermark,
 * beside a run of the backend that they read at one point each.
 */
module Delivery {
  import opened Common
  import opened Timestamp
  import opened Backend
  import opened BackendTheorems
  import Agent
  import BackendInvariant
  import BackendSafety
  import System
  import BackendProgress
  import LaunchRun

  /**
   * One turn of the polling loop: the poll reads the backend at point `at` of its run, it is answered
   * or not, its batch is handled to the end or not, and the clock is read after that.
   */
  datatype Cycle = Cycle(at: nat, answered: bool, handled: bool, clock: Ticks)

  predicate Answered(c: Cycle) {
    c.answered
  }

  predicate Completed(c: Cycle) {
    c.answered && c.handled
  }

  /** The `since` of a poll: the backend reads its text to the microsecond. */
  function SinceOf(watermark: Ticks): Micros {
    watermark / 10
  }

  /** The watermark that cycle `k` polls with, when the worker started at `start`. */
  function Watermark(start: Ticks, cycles: seq<Cycle>, k: nat): Ticks
    requires k <= |cycles|
  {
    if k == 0 then start
    else Agent.NextWatermark(Watermark(start, cycles, k - 1), !Completed(cycles[k - 1]), cycles[k - 1].clock)
  }

  /** The polls read the backend in order, within its run, and the agent's clock does not go back. */
  predicate InOrder(events: seq<Event>, start: Ticks, cycles: seq<Cycle>) {
    && (forall k :: 0 <= k < |cycles| ==> cycles[k].at <= |events| && start <= cycles[k].clock)
    && (forall j, k :: 0 <= j < k < |cycles| ==> cycles[j].at <= cycles[k].at && cycles[j].clock <= cycles[k].clock)
  }

  /** What cycle `k` reads the backend's tables as. */
  function ReadBy(events: seq<Event>, cycles: seq<Cycle>, k: nat): Db
    requires Run(INITIAL, events).Some? && k < |cycles| && cycles[k].at <= |events|
  {
    StateAt(events, cycles[k].at).db
  }

  /** Cycle `k` is answered, and its answer tells of the request. */
  ghost predicate ToldIn(
      events: seq<Event>, start: Ticks, cycles: seq<Cycle>, device: Uuid, id: Uuid, k: nat)
    requires Run(INITIAL, events).Some? && InOrder(events, start, cycles) && k < |cycles|
  {
    cycles[k].answered && Tells(ReadBy(events, cycles, k), device, SinceOf(Watermark(start, cycles, k)), id)
  }

  predicate IsDecided(db: Db, id: Uuid) {
    id in db.requests && db.requests[id].reviewedAt.Some?
  }

  /** Cycle `k` is the first of those with `good` that reads the backend after the request was decided. */
  predicate IsFirstAfterDecision(
      events: seq<Event>, start: Ticks, cycles: seq<Cycle>, id: Uuid, good: Cycle -> bool, k: nat)
    requires Run(INITIAL, events).Some? && InOrder(events, start, cycles) && k < |cycles|
  {
    && good(cycles[k]) && IsDecided(ReadBy(events, cycles, k), id)
    && forall j :: 0 <= j < k && good(cycles[j]) ==> !IsDecided(ReadBy(events, cycles, j), id)
  }

  // ---------- the watermark ----------

  /** At cycle `k` the watermark is the start or the clock of an earlier cycle. */
  lemma {:induction false} WatermarkGrows(events: seq<Event>, start: Ticks, cycles: seq<Cycle>, j: nat, k: nat)
    requires InOrder(events, start, cycles) && j <= k <= |cycles|
    ensures Watermark(start, cycles, j) <= Watermark(start, cycles, k)
    ensures k < |cycles| ==> Watermark(start, cycles, k) <= cycles[k].clock
    decreases k
  {
    if k > 0 {
      WatermarkGrows(events, start, cycles, if j < k then j else k - 1, k - 1);
    }
  }

  // ---------- the backend between two polls ----------

  /** A decision a poll could read stays what it was for every later poll. */
  lemma DecisionStays(events: seq<Event>, a: nat, b: nat, id: Uuid)
    requires Run(INITIAL, events).Some? && a <= b <= |events| && IsDecided(StateAt(events, a).db, id)
    ensures IsDecided(StateAt(events, b).db, id)
    ensures StateAt(events, b).db.requests[id] == StateAt(events, a).db.requests[id]
  {
    hide Next;
    PrefixRuns(events, a);
    PrefixRuns(events, b);
    assert events[..b] == events[..a] + events[a..b];
    RunComposes(INITIAL, events[..a], events[a..b]);
    CommittedRowsAreConsistent(events[..a]);
    DecisionsAreFinal(events[..a], events[a..b], id);
  }

  /** A poll tells of a request exactly when it is decided, the device's own, and not before the watermark. */
  lemma TellsIff(events: seq<Event>, a: nat, device: Uuid, since: Micros, id: Uuid)
    requires Run(INITIAL, events).Some? && a <= |events|
    ensures Tells(StateAt(events, a).db, device, since, id)
       <==> && IsDecided(StateAt(events, a).db, id) && StateAt(events, a).db.requests[id].device == device
            && since <= StateAt(events, a).db.requests[id].reviewedAt.value
  {
    hide Next;
    PrefixRuns(events, a);
    CommittedRowsAreConsistent(events[..a]);
    var db := StateAt(events, a).db;
    if IsOffered(db, device, since, id) {
      assert DecisionOf(db, id) in Offered(db, device, since);
    }
  }

  // ---------- what the agent is told ----------

  /**
   * Let `k` be the first answered cycle that polls after the decision was committed. The device is told
   * of the decision in some cycle exactly when it is told in that one: exactly when it is its own, and
   * the watermark has not passed the review time. Otherwise the decision is lost to it.
   */
  lemma ToldEverIffToldFirst(
      events: seq<Event>, start: Ticks, cycles: seq<Cycle>, device: Uuid, id: Uuid, k: nat)
    requires Run(INITIAL, events).Some? && InOrder(events, start, cycles) && k < |cycles|
    requires IsFirstAfterDecision(events, start, cycles, id, Answered, k)
    ensures ToldEver(events, start, cycles, device, id)
       <==> && ReadBy(events, cycles, k).requests[id].device == device
            && SinceOf(Watermark(start, cycles, k)) <= ReadBy(events, cycles, k).requests[id].reviewedAt.value
  {
    hide Tells;
    hide Run;
    hide StateAt;
    hide Watermark;
    TellsIff(events, cycles[k].at, device, SinceOf(Watermark(start, cycles, k)), id);
    assert Answered(cycles[k]);
    assert ToldIn(events, start, cycles, device, id, k)
      <==> Tells(ReadBy(events, cycles, k), device, SinceOf(Watermark(start, cycles, k)), id);
    forall n: nat | n < |cycles| && ToldIn(events, start, cycles, device, id, n)
      ensures ToldIn(events, start, cycles, device, id, k)
    {
      ToldIsDecided(events, start, cycles, device, id, n);
      assert n < k ==> !Answered(cycles[n]);
      ToldLaterToldFirst(events, start, cycles, device, id, k, n);
    }
  }

  lemma ToldLaterToldFirst(
      events: seq<Event>, start: Ticks, cycles: seq<Cycle>, device: Uuid, id: Uuid, k: nat, n: nat)
    requires Run(INITIAL, events).Some? && InOrder(events, start, cycles) && k <= n < |cycles|
    requires cycles[k].answered && IsDecided(ReadBy(events, cycles, k), id)
    requires ToldIn(events, start, cycles, device, id, n)
    ensures ToldIn(events, start, cycles, device, id, k)
  {
    hide Tells;
    hide Watermark;
    hide Run;
    hide StateAt;
    TellsIff(events, cycles[n].at, device, SinceOf(Watermark(start, cycles, n)), id);
    TellsIff(events, cycles[k].at, device, SinceOf(Watermark(start, cycles, k)), id);
    WatermarkGrows(events, start, cycles, k, n);
    assert k < n ==> cycles[k].at <= cycles[n].at;
    DecisionStays(events, cycles[k].at, cycles[n].at, id);
  }

  /** Only what is decided is told. */
  lemma ToldIsDecided(
      events: seq<Event>, start: Ticks, cycles: seq<Cycle>, device: Uuid, id: Uuid, n: nat)
    requires Run(INITIAL, events).Some? && InOrder(events, start, cycles) && n < |cycles|
    requires ToldIn(events, start, cycles, device, id, n)
    ensures cycles[n].answered && IsDecided(ReadBy(events, cycles, n), id)
  {
    hide Tells;
    hide Run;
    hide StateAt;
    TellsIff(events, cycles[n].at, device, SinceOf(Watermark(start, cycles, n)), id);
  }

  /** While no cycle completes the watermark stays. */
  lemma {:induction false} WatermarkWaits(start: Ticks, cycles: seq<Cycle>, n: nat, k: nat)
    requires n <= k <= |cycles| && forall j :: n <= j < k ==> !Completed(cycles[j])
    ensures Watermark(start, cycles, k) == Watermark(start, cycles, n)
    decreases k
  {
    if n < k {
      WatermarkWaits(start, cycles, n, k - 1);
    }
  }

  lemma ToldEarlierToldInCompleted(
      events: seq<Event>, start: Ticks, cycles: seq<Cycle>, device: Uuid, id: Uuid, n: nat, k: nat)
    requires Run(INITIAL, events).Some? && InOrder(events, start, cycles) && n < k < |cycles|
    requires IsFirstAfterDecision(events, start, cycles, id, Completed, k)
    requires ToldIn(events, start, cycles, device, id, n)
    ensures ToldIn(events, start, cycles, device, id, k)
  {
    hide Tells;
    hide Watermark;
    hide Run;
    hide StateAt;
    ToldIsDecided(events, start, cycles, device, id, n);
    forall j | n <= j < k ensures !Completed(cycles[j]) {
      assert n < j ==> cycles[n].at <= cycles[j].at;
      DecisionStays(events, cycles[n].at, cycles[j].at, id);
    }
    WatermarkWaits(start, cycles, n, k);
    DecisionStays(events, cycles[n].at, cycles[k].at, id);
    TellsIff(events, cycles[n].at, device, SinceOf(Watermark(start, cycles, n)), id);
    TellsIff(events, cycles[k].at, device, SinceOf(Watermark(start, cycles, k)), id);
  }

  ghost predicate ToldEver(events: seq<Event>, start: Ticks, cycles: seq<Cycle>, device: Uuid, id: Uuid)
    requires Run(INITIAL, events).Some? && InOrder(events, start, cycles)
  {
    exists n: nat :: n < |cycles| && ToldIn(events, start, cycles, device, id, n)
  }

  /**
   * What a failed cycle was told is told again: let `k` be the first cycle that completes after polling
   * a committed decision; the device is told of it in some cycle exactly when it is told in that one.
   */
  lemma ToldEverIffHandled(
      events: seq<Event>, start: Ticks, cycles: seq<Cycle>, device: Uuid, id: Uuid, k: nat)
    requires Run(INITIAL, events).Some? && InOrder(events, start, cycles) && k < |cycles|
    requires IsFirstAfterDecision(events, start, cycles, id, Completed, k)
    ensures ToldEver(events, start, cycles, device, id) <==> ToldIn(events, start, cycles, device, id, k)
  {
    hide ToldIn;
    hide Run;
    forall n: nat | n < |cycles| && ToldIn(events, start, cycles, device, id, n)
      ensures ToldIn(events, start, cycles, device, id, k)
    {
      if n < k {
        ToldEarlierToldInCompleted(events, start, cycles, device, id, n, k);
      } else {
        ToldLaterToldFirst(events, start, cycles, device, id, k, n);
      }
    }
  }

  // ---------- how a decision is lost ----------

  /**
   * A decision reviewed before the end of a completed batch, but committed after the poll of that batch,
   * is lost: no cycle, earlier or later, tells the device of it.
   */
  lemma LostDuringABatch(
      events: seq<Event>, start: Ticks, cycles: seq<Cycle>, device: Uuid, id: Uuid, j: nat, b: nat)
    requires Run(INITIAL, events).Some? && InOrder(events, start, cycles) && j < |cycles| && b <= |events|
    requires Completed(cycles[j]) && !IsDecided(ReadBy(events, cycles, j), id)
    requires IsDecided(StateAt(events, b).db, id)
    requires StateAt(events, b).db.requests[id].reviewedAt.value < SinceOf(cycles[j].clock)
    ensures !ToldEver(events, start, cycles, device, id)
  {
    hide ToldIn;
    hide Run;
    forall n: nat | n < |cycles| ensures !ToldIn(events, start, cycles, device, id, n) {
      if ToldIn(events, start, cycles, device, id, n) {
        NotToldOf(events, start, cycles, device, id, j, b, n);
      }
    }
  }

  lemma NotToldOf(
      events: seq<Event>, start: Ticks, cycles: seq<Cycle>, device: Uuid, id: Uuid, j: nat, b: nat, n: nat)
    requires Run(INITIAL, events).Some? && InOrder(events, start, cycles) && j < |cycles| && b <= |events|
    requires Completed(cycles[j]) && !IsDecided(ReadBy(events, cycles, j), id)
    requires IsDecided(StateAt(events, b).db, id)
    requires StateAt(events, b).db.requests[id].reviewedAt.value < SinceOf(cycles[j].clock)
    requires n < |cycles|
    ensures !ToldIn(events, start, cycles, device, id, n)
  {
    hide Tells;
    hide Run;
    hide StateAt;
    TellsIff(events, cycles[n].at, device, SinceOf(Watermark(start, cycles, n)), id);
    if IsDecided(ReadBy(events, cycles, n), id) {
      if n <= j {
        assert n < j ==> cycles[n].at <= cycles[j].at;
        DecisionStays(events, cycles[n].at, cycles[j].at, id);
        assert false;
      }
      WatermarkGrows(events, start, cycles, j + 1, n);
      if b <= cycles[n].at {
        DecisionStays(events, b, cycles[n].at, id);
      } else {
        DecisionStays(events, cycles[n].at, b, id);
      }
    }
  }

  /**
   * It happens: for every device and request there is a run that approves the request, and no polling
   * that completed a batch polled before the run and ended a microsecond after the review ever tells of it.
   */
  lemma SomeDecisionIsLost(device: Uuid, id: Uuid) returns (events: seq<Event>, ended: Ticks)
    ensures Run(INITIAL, events).Some?
    ensures var db := Run(INITIAL, events).value.db;
            id in db.requests && db.requests[id].status.Approved? && db.requests[id].device == device
    ensures forall start: Ticks, cycles: seq<Cycle> ::
              InOrder(events, start, cycles) && |cycles| > 0 && cycles[0] == Cycle(0, true, true, ended)
              ==> !ToldEver(events, start, cycles, device, id)
  {
    var w, y := LaunchRun.Fresh(device), LaunchRun.Example(device, id, LaunchRun.RAW, LaunchRun.NOON, "ab");
    events := BackendProgress.FilingSteps(y.filing) + BackendProgress.ApprovalSteps(y.review);
    ended := ToTicks(LaunchRun.NOON) + 10;
    ExampleDecides(device, id, w, y, events);
    hide ToldEver;
    hide Run;
    forall start: Ticks, cycles: seq<Cycle> |
      InOrder(events, start, cycles) && |cycles| > 0 && cycles[0] == Cycle(0, true, true, ended)
      ensures !ToldEver(events, start, cycles, device, id)
    {
      LostDuringABatch(events, start, cycles, device, id, 0, |events|);
    }
  }

  lemma ExampleDecides(device: Uuid, id: Uuid, w: System.World, y: LaunchRun.Story, events: seq<Event>)
    requires w == LaunchRun.Fresh(device)
    requires y == LaunchRun.Example(device, id, LaunchRun.RAW, LaunchRun.NOON, "ab")
    requires events == BackendProgress.FilingSteps(y.filing) + BackendProgress.ApprovalSteps(y.review)
    ensures Run(INITIAL, events).Some?
    ensures StateAt(events, |events|) == Run(INITIAL, events).value && StateAt(events, 0).db == EMPTY
    ensures var db := Run(INITIAL, events).value.db;
            && id in db.requests && db.requests[id].status.Approved? && db.requests[id].device == device
            && db.requests[id].reviewedAt == Some(LaunchRun.NOON)
  {
    ExampleGrants(device, id, w, y);
    hide BackendProgress.FilingSteps;
    hide BackendProgress.ApprovalSteps;
    hide LaunchRun.Unhindered;
    RunComposes(INITIAL, BackendProgress.FilingSteps(y.filing), BackendProgress.ApprovalSteps(y.review));
    StateAtEnd(events);
    assert Run(INITIAL, events[..0]) == Some(INITIAL);
  }

  lemma ExampleGrants(device: Uuid, id: Uuid, w: System.World, y: LaunchRun.Story)
    requires w == LaunchRun.Fresh(device)
    requires y == LaunchRun.Example(device, id, LaunchRun.RAW, LaunchRun.NOON, "ab")
    ensures Run(INITIAL, BackendProgress.FilingSteps(y.filing)).Some?
    ensures var filed := Run(INITIAL, BackendProgress.FilingSteps(y.filing)).value;
            && Run(filed, BackendProgress.ApprovalSteps(y.review)).Some?
            && var db := Run(filed, BackendProgress.ApprovalSteps(y.review)).value.db;
               && id in db.requests && db.requests[id].status.Approved? && db.requests[id].device == device
               && db.requests[id].reviewedAt == Some(LaunchRun.NOON)
  {
    LaunchRun.RawIsAccepted();
    LaunchRun.ExampleIsUnhindered(device, id, LaunchRun.RAW, LaunchRun.NOON, "ab");
    BackendSafety.InitialInv();
    hide LaunchRun.Unhindered;
    hide Run;
    hide BackendInvariant.Inv;
    LaunchRun.BackendGrants(w, y);
  }
}
