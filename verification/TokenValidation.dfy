/** The agent's gate: the ordered checks on a token, and the ledger that burns its nonce. */
module TokenValidation {
  import opened Common
  import opened Timestamp
  import opened Utf8
  import opened CanonicalPayload
  import opened Wire

  datatype Rejection = InvalidSignature | DeviceMismatch | RequestIdMismatch | Expired | NonceReused | HashMismatch

  /** `Threw` is an exception: a field too long to encode, or an empty nonce. */
  datatype Verdict = Valid | Invalid(reason: Rejection) | Threw

  function RebuiltPayload(t: WireToken): Result<seq<Byte>, PayloadError> {
    DotnetPayload(t.device, t.request, t.sha256, t.expiresAt, t.nonce)
  }

  /** The checks before the ledger; no verdict yet when all of them pass. */
  function Admission(t: WireToken, device: string, request: string, now: Ticks): Option<Verdict> {
    match RebuiltPayload(t)
    case Err(_) => Some(Threw)
    case Ok(payload) =>
      if t.signature != Genuine(payload) then Some(Invalid(InvalidSignature))
      else if t.device != device then Some(Invalid(DeviceMismatch))
      else if t.request != request then Some(Invalid(RequestIdMismatch))
      else if t.expiresAt <= now then Some(Invalid(Expired))
      else None
  }

  predicate SameHash(a: string, b: string) {
    Lower(a) == Lower(b)
  }

  /** From the ledger on: the nonce is spent before the hashes are compared. */
  function Spend(t: WireToken, hash: string, ledger: set<string>): (Verdict, set<string>) {
    if t.nonce == "" then (Threw, ledger)
    else if t.nonce in ledger then (Invalid(NonceReused), ledger)
    else (if SameHash(t.sha256, hash) then Valid else Invalid(HashMismatch), ledger + {t.nonce})
  }

  /** Whether the ledger's database throws while the nonce is spent, and whether the row is in by then. */
  datatype Fault = NoFault | BeforeWrite | AfterWrite

  function Validation(
      t: WireToken, device: string, request: string, hash: string, now: Ticks, ledger: set<string>, fault: Fault)
    : (Verdict, set<string>)
  {
    match Admission(t, device, request, now)
    case Some(verdict) => (verdict, ledger)
    case None =>
      match fault
      case NoFault => Spend(t, hash, ledger)
      case BeforeWrite => (Threw, ledger)
      case AfterWrite => (Threw, Spend(t, hash, ledger).1)
  }

  // ---------- the classes ----------

  /** The durable table of consumed nonces. */
  class SqliteNonceStore {
    var consumed: set<string>

    constructor (onDisk: set<string>)
      ensures consumed == onDisk
    {
      consumed := onDisk;
    }

    /** INSERT OR IGNORE: true for the first call ever with this nonce, and only for that one. */
    method TryConsume(nonce: string, fault: Fault) returns (isNew: bool, threw: bool)
      modifies this
      ensures threw <==> nonce == "" || !fault.NoFault?
      ensures isNew <==> !threw && nonce !in old(consumed)
      ensures consumed == if nonce == "" || fault.BeforeWrite? then old(consumed) else old(consumed) + {nonce}
    {
      if nonce == "" || fault.BeforeWrite? {
        return false, true;
      }
      var rowsAffected := if nonce in consumed then 0 else 1;
      consumed := consumed + {nonce};
      if fault.AfterWrite? {
        return false, true;
      }
      return rowsAffected == 1, false;
    }
  }

  class ApprovalTokenValidator {
    const nonceStore: SqliteNonceStore

    constructor (store: SqliteNonceStore)
      ensures nonceStore == store
    {
      nonceStore := store;
    }

    method Validate(
        token: WireToken, expectedDevice: string, expectedRequest: string, currentHash: string, now: Ticks,
        fault: Fault)
      returns (verdict: Verdict)
      modifies nonceStore
      ensures (verdict, nonceStore.consumed)
           == Validation(token, expectedDevice, expectedRequest, currentHash, now, old(nonceStore.consumed), fault)
    {
      var payload := Build(token.device, token.request, token.sha256, token.expiresAt, token.nonce);
      if payload.Err? {
        return Threw;
      }
      if token.signature != Genuine(payload.value) {
        return Invalid(InvalidSignature);
      }
      if token.device != expectedDevice {
        return Invalid(DeviceMismatch);
      }
      if token.request != expectedRequest {
        return Invalid(RequestIdMismatch);
      }
      if token.expiresAt <= now {
        return Invalid(Expired);
      }
      var isNew, threw := nonceStore.TryConsume(token.nonce, fault);
      assert token.nonce in old(nonceStore.consumed) ==>
               old(nonceStore.consumed) + {token.nonce} == old(nonceStore.consumed);
      if threw {
        return Threw;
      }
      if !isNew {
        return Invalid(NonceReused);
      }
      if !SameHash(token.sha256, currentHash) {
        return Invalid(HashMismatch);
      }
      return Valid;
    }
  }

  /** A token is valid exactly when every check passes and its nonce was never spent before. */
  lemma ValidIff(
      t: WireToken, device: string, request: string, hash: string, now: Ticks, ledger: set<string>, fault: Fault)
    ensures Validation(t, device, request, hash, now, ledger, fault).0 == Valid
       <==> && RebuiltPayload(t).Ok? && t.signature == Genuine(RebuiltPayload(t).value)
            && t.device == device && t.request == request && now < t.expiresAt
            && t.nonce != "" && t.nonce !in ledger && SameHash(t.sha256, hash) && fault.NoFault?
  {
  }

  predicate IsGenuine(t: WireToken) {
    RebuiltPayload(t).Ok? && t.signature == Genuine(RebuiltPayload(t).value)
  }

  /** Made for this device and request, and in time. */
  predicate IsBound(t: WireToken, device: string, request: string, now: Ticks) {
    IsGenuine(t) && t.device == device && t.request == request && now < t.expiresAt
  }

  /**
   * Why a token is refused: each reason exactly when its own check fails and all checks before it pass;
   * and when the validator throws instead.
   */
  lemma RefusedIff(
      t: WireToken, device: string, request: string, hash: string, now: Ticks, ledger: set<string>, fault: Fault)
    ensures var verdict := Validation(t, device, request, hash, now, ledger, fault).0;
            var bound := IsBound(t, device, request, now);
            && (verdict == Invalid(InvalidSignature) <==> (RebuiltPayload(t).Ok? && !IsGenuine(t)))
            && (verdict == Invalid(DeviceMismatch) <==> (IsGenuine(t) && t.device != device))
            && (verdict == Invalid(RequestIdMismatch)
                <==> (IsGenuine(t) && t.device == device && t.request != request))
            && (verdict == Invalid(Expired)
                <==> (IsGenuine(t) && t.device == device && t.request == request && now >= t.expiresAt))
            && (verdict == Invalid(NonceReused)
                <==> (bound && fault == NoFault && t.nonce != "" && t.nonce in ledger))
            && (verdict == Invalid(HashMismatch)
                <==> (bound && fault == NoFault && t.nonce != "" && t.nonce !in ledger
                      && Lower(t.sha256) != Lower(hash)))
            && (verdict == Threw
                <==> (RebuiltPayload(t).Err? || (bound && (t.nonce == "" || fault != NoFault))))
  {
    hide RebuiltPayload;
    hide Lower;
  }

  /** What a validation leaves in the ledger: the nonce too, once the checks before it have passed. */
  lemma LedgerAfter(
      t: WireToken, device: string, request: string, hash: string, now: Ticks, ledger: set<string>, fault: Fault)
    ensures Validation(t, device, request, hash, now, ledger, fault).1
         == if IsBound(t, device, request, now) && t.nonce != "" && !fault.BeforeWrite? then ledger + {t.nonce}
            else ledger
  {
    hide RebuiltPayload;
    assert t.nonce in ledger ==> ledger + {t.nonce} == ledger;
  }

  // ---------- interleaved validations ----------

  datatype Presentation = Presentation(token: WireToken, device: string, request: string, hash: string)

  /** Where a call stands: what it was given, the clock it passed the checks on, or what it was told. */
  datatype Progress =
    | Presented(p: Presentation)
    | Admitted(p: Presentation, at: Ticks)
    | Finished(verdict: Verdict)

  datatype Validator = Validator(ledger: set<string>, calls: map<nat, Progress>)

  datatype Step =
    | Present(call: nat, p: Presentation)
    | Check(call: nat, now: Ticks)
    | Consume(call: nat)
    | Abandon(call: nat)

  function AdmissionOf(p: Presentation, now: Ticks): Option<Verdict> {
    Admission(p.token, p.device, p.request, now)
  }

  function Next(v: Validator, step: Step): Option<Validator> {
    match step
    case Present(c, p) => if c in v.calls then None else Some(v.(calls := v.calls[c := Presented(p)]))
    case Check(c, now) =>
      if c in v.calls && v.calls[c].Presented? then
        var p := v.calls[c].p;
        (match AdmissionOf(p, now)
         case Some(verdict) => Some(v.(calls := v.calls[c := Finished(verdict)]))
         case None => Some(v.(calls := v.calls[c := Admitted(p, now)])))
      else None
    case Consume(c) =>
      if c in v.calls && v.calls[c].Admitted? then
        var (verdict, ledger) := Spend(v.calls[c].p.token, v.calls[c].p.hash, v.ledger);
        Some(Validator(ledger, v.calls[c := Finished(verdict)]))
      else None
    case Abandon(c) => Some(v.(calls := v.calls - {c}))
  }

  function Run(v: Validator, steps: seq<Step>): Option<Validator>
    decreases |steps|
  {
    if |steps| == 0 then Some(v)
    else
      match Run(v, steps[..|steps| - 1])
      case None => None
      case Some(mid) => Next(mid, steps[|steps| - 1])
  }

  /** A process that opens a ledger with these nonces on disk. */
  function Opened(onDisk: set<string>): Validator {
    Validator(onDisk, map[])
  }

  // ---------- what a run of steps did, read off the steps alone ----------

  /** No step from `a` on and before `b` is of this call. */
  predicate Untouched(steps: seq<Step>, c: nat, a: nat, b: nat)
    requires a <= b <= |steps|
  {
    forall k :: a <= k < b ==> steps[k].call != c
  }

  /** Step `h` presents `p`, and by step `b` nothing else was done with that call. */
  predicate PresentedAt(steps: seq<Step>, c: nat, p: Presentation, h: nat, b: nat) {
    h < b <= |steps| && steps[h] == Present(c, p) && Untouched(steps, c, h + 1, b)
  }

  /** The call passed signature, device, request and expiry at step `i`, on the clock read there. */
  predicate PassedAt(steps: seq<Step>, c: nat, p: Presentation, now: Ticks, h: nat, i: nat, b: nat) {
    && i < b <= |steps| && PresentedAt(steps, c, p, h, i) && steps[i] == Check(c, now)
    && AdmissionOf(p, now).None? && Untouched(steps, c, i + 1, b)
  }

  /** A call that presented `p`, passed the checks on clock `now`, and went on to the ledger at step `j`. */
  ghost predicate Visit(steps: seq<Step>, c: nat, p: Presentation, now: Ticks, j: nat) {
    && j < |steps| && steps[j] == Consume(c)
    && exists h: nat, i: nat :: PassedAt(steps, c, p, now, h, i, j)
  }

  /** Some call visited the ledger with this nonce at step `j`. */
  ghost predicate VisitedWith(steps: seq<Step>, nonce: string, j: nat) {
    exists c: nat, p: Presentation, now: Ticks :: Visit(steps, c, p, now, j) && p.token.nonce == nonce
  }

  ghost predicate VisitedBefore(steps: seq<Step>, nonce: string, b: nat) {
    exists j: nat :: j < b && VisitedWith(steps, nonce, j)
  }

  // ---------- the run does what its steps say ----------

  lemma {:induction false} PrefixRuns(v: Validator, steps: seq<Step>, k: nat)
    requires k <= |steps| && Run(v, steps).Some?
    ensures Run(v, steps[..k]).Some?
    decreases |steps|
  {
    hide Next;
    if k == |steps| {
      assert steps[..k] == steps;
    } else {
      var last := |steps| - 1;
      PrefixRuns(v, steps[..last], k);
      assert steps[..last][..k] == steps[..k];
    }
  }

  lemma StepAt(v: Validator, steps: seq<Step>, k: nat)
    requires k < |steps| && Run(v, steps).Some?
    ensures Run(v, steps[..k]).Some? && Run(v, steps[..k + 1]).Some?
    ensures Next(Run(v, steps[..k]).value, steps[k]) == Run(v, steps[..k + 1])
  {
    hide Next;
    PrefixRuns(v, steps, k);
    PrefixRuns(v, steps, k + 1);
    assert steps[..k + 1][..k] == steps[..k];
  }

  /** The validator just before step `k`. */
  function StateAt(v: Validator, steps: seq<Step>, k: nat): Validator
    requires k <= |steps| && Run(v, steps).Some?
  {
    PrefixRuns(v, steps, k);
    Run(v, steps[..k]).value
  }

  lemma StateStep(v: Validator, steps: seq<Step>, k: nat)
    requires k < |steps| && Run(v, steps).Some?
    ensures Next(StateAt(v, steps, k), steps[k]) == Some(StateAt(v, steps, k + 1))
  {
    StepAt(v, steps, k);
  }

  predicate CallIs(v: Validator, c: nat, s: Progress) {
    c in v.calls && v.calls[c] == s
  }

  lemma {:induction false} UntouchedCallStays(v: Validator, steps: seq<Step>, c: nat, s: Progress, a: nat, b: nat)
    requires a <= b <= |steps| && Run(v, steps).Some? && Untouched(steps, c, a, b)
    requires CallIs(StateAt(v, steps, a), c, s)
    ensures CallIs(StateAt(v, steps, b), c, s)
    decreases b - a
  {
    hide Run;
    hide Spend;
    hide Admission;
    if a < b {
      UntouchedCallStays(v, steps, c, s, a, b - 1);
      StateStep(v, steps, b - 1);
    }
  }

  lemma PresentedCall(onDisk: set<string>, steps: seq<Step>, c: nat, p: Presentation, h: nat, b: nat)
    requires Run(Opened(onDisk), steps).Some? && PresentedAt(steps, c, p, h, b)
    ensures CallIs(StateAt(Opened(onDisk), steps, b), c, Presented(p))
  {
    StateStep(Opened(onDisk), steps, h);
    hide Run;
    UntouchedCallStays(Opened(onDisk), steps, c, Presented(p), h + 1, b);
  }

  lemma PassedCall(
      onDisk: set<string>, steps: seq<Step>, c: nat, p: Presentation, now: Ticks, h: nat, i: nat, b: nat)
    requires Run(Opened(onDisk), steps).Some? && PassedAt(steps, c, p, now, h, i, b)
    ensures CallIs(StateAt(Opened(onDisk), steps, b), c, Admitted(p, now))
  {
    PresentedCall(onDisk, steps, c, p, h, i);
    StateStep(Opened(onDisk), steps, i);
    hide Run;
    hide Admission;
    UntouchedCallStays(Opened(onDisk), steps, c, Admitted(p, now), i + 1, b);
  }

  ghost predicate VisitedLast(steps: seq<Step>, c: nat, b: nat)
    requires b <= |steps|
  {
    exists p: Presentation, now: Ticks, j: nat ::
      Visit(steps, c, p, now, j) && j < b && Untouched(steps, c, j + 1, b)
  }

  /** The other way round: whatever a call shows before step `b`, the steps up to there have done. */
  ghost predicate Explained(steps: seq<Step>, c: nat, s: Progress, b: nat)
    requires b <= |steps|
  {
    match s
    case Presented(p) => exists h: nat :: PresentedAt(steps, c, p, h, b)
    case Admitted(p, now) => exists h: nat, i: nat :: PassedAt(steps, c, p, now, h, i, b)
    case Finished(verdict) => verdict.Valid? ==> VisitedLast(steps, c, b)
  }

  lemma ExplainedStays(steps: seq<Step>, c: nat, s: Progress, b: nat)
    requires b < |steps| && Explained(steps, c, s, b) && steps[b].call != c
    ensures Explained(steps, c, s, b + 1)
  {
    hide AdmissionOf;
    match s
    case Presented(p) =>
      var h: nat :| PresentedAt(steps, c, p, h, b);
      assert PresentedAt(steps, c, p, h, b + 1);
    case Admitted(p, now) =>
      var h: nat, i: nat :| PassedAt(steps, c, p, now, h, i, b);
      assert PassedAt(steps, c, p, now, h, i, b + 1);
    case Finished(verdict) =>
      if verdict.Valid? {
        var p: Presentation, now: Ticks, j: nat :|
          j < b && Visit(steps, c, p, now, j) && Untouched(steps, c, j + 1, b);
        assert Untouched(steps, c, j + 1, b + 1);
      }
  }

  lemma ExplainedStep(steps: seq<Step>, b: nat, v: Validator, v': Validator)
    requires b < |steps| && Next(v, steps[b]) == Some(v')
    requires steps[b].call in v.calls ==> Explained(steps, steps[b].call, v.calls[steps[b].call], b)
    ensures steps[b].call in v'.calls ==> Explained(steps, steps[b].call, v'.calls[steps[b].call], b + 1)
  {
    hide Spend;
    hide AdmissionOf;
    hide Explained;
    var c := steps[b].call;
    match steps[b]
    case Present(_, p) => PresentExplained(steps, c, p, b);
    case Check(_, now) => CheckExplained(steps, c, v.calls[c].p, now, b);
    case Consume(_) => ConsumeExplained(steps, c, v.calls[c].p, v.calls[c].at, v'.calls[c].verdict, b);
    case Abandon(_) =>
  }

  lemma PresentExplained(steps: seq<Step>, c: nat, p: Presentation, b: nat)
    requires b < |steps| && steps[b] == Present(c, p)
    ensures Explained(steps, c, Presented(p), b + 1)
  {
    assert PresentedAt(steps, c, p, b, b + 1);
  }

  lemma CheckExplained(steps: seq<Step>, c: nat, p: Presentation, now: Ticks, b: nat)
    requires b < |steps| && steps[b] == Check(c, now) && Explained(steps, c, Presented(p), b)
    ensures match AdmissionOf(p, now)
            case None => Explained(steps, c, Admitted(p, now), b + 1)
            case Some(verdict) => Explained(steps, c, Finished(verdict), b + 1)
  {
    AdmissionIsNotValid(p, now);
    hide AdmissionOf;
    var h: nat :| PresentedAt(steps, c, p, h, b);
    if AdmissionOf(p, now).None? {
      assert PassedAt(steps, c, p, now, h, b, b + 1);
    }
  }

  lemma ConsumeExplained(steps: seq<Step>, c: nat, p: Presentation, now: Ticks, verdict: Verdict, b: nat)
    requires b < |steps| && steps[b] == Consume(c) && Explained(steps, c, Admitted(p, now), b)
    ensures Explained(steps, c, Finished(verdict), b + 1)
  {
    hide PassedAt;
    assert Visit(steps, c, p, now, b);
    assert Untouched(steps, c, b + 1, b + 1);
  }

  lemma AdmissionIsNotValid(p: Presentation, now: Ticks)
    ensures AdmissionOf(p, now) != Some(Valid)
  {
  }

  lemma {:induction false} CallsAreExplained(onDisk: set<string>, steps: seq<Step>, b: nat, c: nat)
    requires Run(Opened(onDisk), steps).Some? && b <= |steps| && c in StateAt(Opened(onDisk), steps, b).calls
    ensures Explained(steps, c, StateAt(Opened(onDisk), steps, b).calls[c], b)
    decreases b
  {
    StateAtEnds(Opened(onDisk), steps);
    if b > 0 {
      var v, v', d := StateAt(Opened(onDisk), steps, b - 1), StateAt(Opened(onDisk), steps, b), steps[b - 1].call;
      StateStep(Opened(onDisk), steps, b - 1);
      if c in v.calls {
        CallsAreExplained(onDisk, steps, b - 1, c);
      }
      if c == d {
        ExplainedStep(steps, b - 1, v, v');
      } else {
        OtherCallsStay(v, steps[b - 1], v', c);
        ExplainedStays(steps, c, v.calls[c], b - 1);
      }
    }
  }

  lemma OtherCallsStay(v: Validator, step: Step, v': Validator, c: nat)
    requires Next(v, step) == Some(v') && step.call != c && c in v'.calls
    ensures c in v.calls && v.calls[c] == v'.calls[c]
  {
    hide Spend;
    hide AdmissionOf;
  }

  lemma StateAtEnds(v: Validator, steps: seq<Step>)
    requires Run(v, steps).Some?
    ensures StateAt(v, steps, 0) == v && StateAt(v, steps, |steps|) == Run(v, steps).value
  {
    assert steps[..|steps|] == steps;
  }

  /** A visit finds its call admitted, and only visits do. */
  lemma ConsumeIsAVisit(onDisk: set<string>, steps: seq<Step>, j: nat)
    requires Run(Opened(onDisk), steps).Some? && j < |steps| && steps[j].Consume?
    ensures var v, c := StateAt(Opened(onDisk), steps, j), steps[j].call;
            c in v.calls && v.calls[c].Admitted? && Visit(steps, c, v.calls[c].p, v.calls[c].at, j)
  {
    StateStep(Opened(onDisk), steps, j);
    CallsAreExplained(onDisk, steps, j, steps[j].call);
    hide Run;
    hide StateAt;
    hide Spend;
    hide AdmissionOf;
  }

  lemma VisitIsAdmitted(onDisk: set<string>, steps: seq<Step>, c: nat, p: Presentation, now: Ticks, j: nat)
    requires Run(Opened(onDisk), steps).Some? && Visit(steps, c, p, now, j)
    ensures CallIs(StateAt(Opened(onDisk), steps, j), c, Admitted(p, now))
  {
    var h: nat, i: nat :| PassedAt(steps, c, p, now, h, i, j);
    PassedCall(onDisk, steps, c, p, now, h, i, j);
  }

  // ---------- the ledger ----------

  lemma {:induction false} LedgerAt(onDisk: set<string>, steps: seq<Step>, b: nat, nonce: string)
    requires Run(Opened(onDisk), steps).Some? && b <= |steps|
    ensures nonce in StateAt(Opened(onDisk), steps, b).ledger
       <==> nonce in onDisk || (nonce != "" && VisitedBefore(steps, nonce, b))
    decreases b
  {
    hide StateAt;
    hide Run;
    hide VisitedBefore;
    hide VisitedWith;
    StateAtEnds(Opened(onDisk), steps);
    NoVisitYet(steps, nonce);
    if b > 0 {
      LedgerAt(onDisk, steps, b - 1, nonce);
      LedgerStep(onDisk, steps, b - 1, nonce);
      OneMoreVisit(steps, nonce, b - 1);
    }
  }

  lemma NoVisitYet(steps: seq<Step>, nonce: string)
    ensures !VisitedBefore(steps, nonce, 0)
  {
  }

  lemma OneMoreVisit(steps: seq<Step>, nonce: string, b: nat)
    ensures VisitedBefore(steps, nonce, b + 1) <==> VisitedBefore(steps, nonce, b) || VisitedWith(steps, nonce, b)
  {
    hide VisitedWith;
    if VisitedBefore(steps, nonce, b + 1) && !VisitedBefore(steps, nonce, b) {
      var j: nat :| j < b + 1 && VisitedWith(steps, nonce, j);
      assert j == b;
    }
  }

  lemma LedgerStep(onDisk: set<string>, steps: seq<Step>, b: nat, nonce: string)
    requires Run(Opened(onDisk), steps).Some? && b < |steps|
    ensures nonce in StateAt(Opened(onDisk), steps, b + 1).ledger
       <==> nonce in StateAt(Opened(onDisk), steps, b).ledger || (nonce != "" && VisitedWith(steps, nonce, b))
  {
    var v, v' := StateAt(Opened(onDisk), steps, b), StateAt(Opened(onDisk), steps, b + 1);
    StateStep(Opened(onDisk), steps, b);
    LedgerOfNext(v, steps[b], v', nonce);
    if steps[b].Consume? {
      ConsumeIsAVisit(onDisk, steps, b);
      WhoVisits(onDisk, steps, b, nonce);
    } else if VisitedWith(steps, nonce, b) {
      OnlyConsumeVisits(steps, b, nonce);
    }
    hide *;
  }

  lemma LedgerOfNext(v: Validator, step: Step, v': Validator, nonce: string)
    requires Next(v, step) == Some(v')
    ensures step.Consume? ==> step.call in v.calls && v.calls[step.call].Admitted?
    ensures nonce in v'.ledger
       <==> nonce in v.ledger || (nonce != "" && step.Consume? && v.calls[step.call].p.token.nonce == nonce)
  {
    hide AdmissionOf;
  }

  lemma OnlyConsumeVisits(steps: seq<Step>, b: nat, nonce: string)
    requires b < |steps| && VisitedWith(steps, nonce, b)
    ensures steps[b].Consume?
  {
  }

  /** The visit at a step is that of the call admitted there. */
  lemma WhoVisits(onDisk: set<string>, steps: seq<Step>, b: nat, nonce: string)
    requires Run(Opened(onDisk), steps).Some? && b < |steps| && steps[b].Consume?
    requires var v, c := StateAt(Opened(onDisk), steps, b), steps[b].call;
             c in v.calls && v.calls[c].Admitted? && Visit(steps, c, v.calls[c].p, v.calls[c].at, b)
    ensures VisitedWith(steps, nonce, b)
       <==> StateAt(Opened(onDisk), steps, b).calls[steps[b].call].p.token.nonce == nonce
  {
    hide Run;
    hide StateAt;
    if VisitedWith(steps, nonce, b) {
      var c: nat, p: Presentation, now: Ticks :| Visit(steps, c, p, now, b) && p.token.nonce == nonce;
      VisitIsAdmitted(onDisk, steps, c, p, now, b);
    }
  }

  /**
   * However validations interleave, a nonce is in the ledger exactly when it was on disk or, not empty,
   * came with a call of this run that passed signature, device, request and expiry on the clock it read
   * then, and later went on to the ledger.
   */
  lemma LedgerRecordsExactlyTheVisits(onDisk: set<string>, steps: seq<Step>, nonce: string)
    requires Run(Opened(onDisk), steps).Some?
    ensures nonce in Run(Opened(onDisk), steps).value.ledger
       <==> nonce in onDisk || (nonce != "" && VisitedBefore(steps, nonce, |steps|))
  {
    LedgerAt(onDisk, steps, |steps|, nonce);
    StateAtEnds(Opened(onDisk), steps);
    hide *;
  }

  // ---------- what callers are told ----------

  /** What a call is told that visits the ledger at step `j`. */
  ghost function Answer(onDisk: set<string>, steps: seq<Step>, p: Presentation, j: nat): Verdict {
    if p.token.nonce == "" then Threw
    else if p.token.nonce in onDisk || VisitedBefore(steps, p.token.nonce, j) then Invalid(NonceReused)
    else if SameHash(p.token.sha256, p.hash) then Valid
    else Invalid(HashMismatch)
  }

  /** A visit is told that its nonce is used unless it is the first with that nonce, ever. */
  lemma VisitIsAnswered(onDisk: set<string>, steps: seq<Step>, c: nat, p: Presentation, now: Ticks, j: nat)
    requires Run(Opened(onDisk), steps).Some? && Visit(steps, c, p, now, j)
    ensures CallIs(StateAt(Opened(onDisk), steps, j + 1), c, Finished(Answer(onDisk, steps, p, j)))
  {
    VisitIsAdmitted(onDisk, steps, c, p, now, j);
    LedgerAt(onDisk, steps, j, p.token.nonce);
    StateStep(Opened(onDisk), steps, j);
    hide Run;
    hide StateAt;
    hide SameHash;
  }

  /** A caller is told "valid" only after a visit, the first with its nonce, whose hash matched. */
  lemma ValidComesFromAFirstVisit(onDisk: set<string>, steps: seq<Step>, c: nat)
      returns (p: Presentation, now: Ticks, j: nat)
    requires Run(Opened(onDisk), steps).Some? && CallIs(Run(Opened(onDisk), steps).value, c, Finished(Valid))
    ensures Visit(steps, c, p, now, j) && Untouched(steps, c, j + 1, |steps|) && SameHash(p.token.sha256, p.hash)
    ensures p.token.nonce != "" && p.token.nonce !in onDisk && !VisitedBefore(steps, p.token.nonce, j)
  {
    hide *;
    ValidWasVisited(onDisk, steps, c);
    p, now, j := LastVisit(steps, c, |steps|);
    VisitIsAnswered(onDisk, steps, c, p, now, j);
    UntouchedCallStays(Opened(onDisk), steps, c, Finished(Answer(onDisk, steps, p, j)), j + 1, |steps|);
    StateAtEnds(Opened(onDisk), steps);
    OneState(Run(Opened(onDisk), steps).value, c, Finished(Valid), Finished(Answer(onDisk, steps, p, j)));
    AnswerIsValid(onDisk, steps, p, j);
  }

  lemma ValidWasVisited(onDisk: set<string>, steps: seq<Step>, c: nat)
    requires Run(Opened(onDisk), steps).Some? && CallIs(Run(Opened(onDisk), steps).value, c, Finished(Valid))
    ensures VisitedLast(steps, c, |steps|)
  {
    StateAtEnds(Opened(onDisk), steps);
    CallsAreExplained(onDisk, steps, |steps|, c);
    hide Run;
    hide StateAt;
    hide VisitedLast;
  }

  lemma AnswerIsValid(onDisk: set<string>, steps: seq<Step>, p: Presentation, j: nat)
    ensures Answer(onDisk, steps, p, j) == Valid
       <==> && p.token.nonce != "" && p.token.nonce !in onDisk && !VisitedBefore(steps, p.token.nonce, j)
            && SameHash(p.token.sha256, p.hash)
  {
    hide VisitedBefore;
    hide SameHash;
  }

  lemma LastVisit(steps: seq<Step>, c: nat, b: nat) returns (p: Presentation, now: Ticks, j: nat)
    requires b <= |steps| && VisitedLast(steps, c, b)
    ensures Visit(steps, c, p, now, j) && j < b && Untouched(steps, c, j + 1, b)
  {
    hide Visit;
    p, now, j :| Visit(steps, c, p, now, j) && j < b && Untouched(steps, c, j + 1, b);
  }

  lemma OneState(v: Validator, c: nat, s: Progress, s': Progress)
    requires CallIs(v, c, s) && CallIs(v, c, s')
    ensures s == s'
  {
  }

  /** Of two visits with one nonce the later is told that it is used, whatever the earlier was told. */
  lemma EachNonceIsValidAtMostOnce(
      onDisk: set<string>, steps: seq<Step>,
      c: nat, p: Presentation, now: Ticks, j: nat, c': nat, p': Presentation, now': Ticks, k: nat)
    requires Run(Opened(onDisk), steps).Some? && j < k
    requires Visit(steps, c, p, now, j) && Visit(steps, c', p', now', k)
    requires p.token.nonce == p'.token.nonce && p.token.nonce != ""
    ensures CallIs(StateAt(Opened(onDisk), steps, k + 1), c', Finished(Invalid(NonceReused)))
  {
    VisitIsAnswered(onDisk, steps, c', p', now', k);
    hide Run;
    hide StateAt;
    hide Visit;
    assert VisitedWith(steps, p.token.nonce, j);
  }
}
