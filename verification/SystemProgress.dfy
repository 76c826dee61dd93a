/** What the protocol lets through: an approval that goes undisturbed commits, and its token is honoured. */
module SystemProgress {
  import opened Common
  import opened Timestamp
  import opened Wire
  import opened TokenValidation
  import opened BackendInvariant
  import Payload = CanonicalPayload
  import B = Backend
  import A = Agent

  // ---------- the agent honours a token ----------

  /** Before the expiry, which is in a year that both runtimes write with four digits. */
  predicate IsInTime(a: B.Approval, now: Ticks) {
    now < ToTicks(a.expiresAt) && YearOfMicros(a.expiresAt) >= 1000
  }

  /** The agent accepts a committed approval's token exactly while it has not expired, given a four-digit year. */
  lemma IssuedTokenIsAdmittedIff(s: B.State, id: Uuid, now: Ticks)
    requires Inv(s) && id in s.db.approvals
    ensures var a := s.db.approvals[id];
            Admission(B.TokenOf(id, a), Hyphenated(a.device), Hyphenated(id), now).None? <==> IsInTime(a, now)
  {
    AuthorizesOf(s, id);
    hide Inv;
    hide B.SignedPayload;
    hide Hyphenated;
    hide YearOfMicros;
    SignedTokenIsAdmittedIff(id, s.db.approvals[id], now);
  }

  lemma SignedTokenIsAdmittedIff(id: Uuid, a: B.Approval, now: Ticks)
    requires a.signature.Genuine?
    requires B.SignedPayload(id, a.device, a.sha256, a.expiresAt, a.nonce) == Result.Ok(a.signature.payload)
    ensures Admission(B.TokenOf(id, a), Hyphenated(a.device), Hyphenated(id), now).None?
       <==> IsInTime(a, now)
  {
    TokenRebuildsIff(id, a);
    hide B.SignedPayload;
    hide RebuiltPayload;
    hide Hyphenated;
    hide YearOfMicros;
  }

  lemma TokenRebuildsIff(id: Uuid, a: B.Approval)
    requires B.SignedPayload(id, a.device, a.sha256, a.expiresAt, a.nonce).Ok?
    ensures RebuiltPayload(B.TokenOf(id, a)) == B.SignedPayload(id, a.device, a.sha256, a.expiresAt, a.nonce)
       <==> YearOfMicros(a.expiresAt) >= 1000
  {
    BothPayloads(id, a);
    hide *;
    Payload.RebuiltBytesEqualSignedBytes(
      Hyphenated(a.device), Hyphenated(id), a.sha256, PythonDatetime(a.expiresAt, Some(0)), a.nonce,
      Hyphenated(a.device), Hyphenated(id), a.sha256, ToTicks(a.expiresAt), a.nonce);
  }

  lemma BothPayloads(id: Uuid, a: B.Approval)
    ensures UtcOf(PythonDatetime(a.expiresAt, Some(0))) == Result.Ok(a.expiresAt)
    ensures B.SignedPayload(id, a.device, a.sha256, a.expiresAt, a.nonce)
         == Payload.PythonPayload(Hyphenated(a.device), Hyphenated(id), a.sha256,
                                  PythonDatetime(a.expiresAt, Some(0)), a.nonce)
    ensures RebuiltPayload(B.TokenOf(id, a))
         == Payload.DotnetPayload(Hyphenated(a.device), Hyphenated(id), a.sha256, ToTicks(a.expiresAt), a.nonce)
  {
    hide Payload.PythonPayload;
    hide Payload.DotnetPayload;
    hide Hyphenated;
  }

  lemma AuthorizesOf(s: B.State, id: Uuid)
    requires Inv(s) && id in s.db.approvals
    ensures var a := s.db.approvals[id];
            && a.signature.Genuine?
            && B.SignedPayload(id, a.device, a.sha256, a.expiresAt, a.nonce) == Result.Ok(a.signature.payload)
  {
    assert CellOk(id, CellOf(s.db, id));
  }

  /** What it takes on the agent: the audit log, the file, the time, a fresh nonce, and a process that starts. */
  predicate NothingInTheWay(a: B.Approval, path: string, ledger: set<string>, m: A.Surroundings) {
    && m.noted && A.CheckPath(path, m.drive, m.onDisk).Some? && m.readable && SameHash(a.sha256, m.hash)
    && m.fault.NoFault? && m.started
    && IsInTime(a, m.now) && a.nonce != "" && a.nonce !in ledger
  }

  function ApprovedDecision(id: Uuid, a: B.Approval): A.Decision {
    A.Decision(Hyphenated(id), A.Approved, Some(B.TokenOf(id, a)))
  }

  /** What agent `agent` does with the approval of `id`, delivered as the backend sends it. */
  function Delivered(s: B.State, id: Uuid, agent: A.State, m: A.Surroundings): A.Handled
    requires id in s.db.approvals
  {
    var a := s.db.approvals[id];
    A.HandleDecision(agent, Hyphenated(a.device), ApprovedDecision(id, a), m)
  }

  lemma ApprovedLaunchesIff(s: A.State, device: string, request: string, token: WireToken, m: A.Surroundings)
    ensures A.HandleDecision(s, device, A.Decision(request, A.Approved, Some(token)), m).launches != []
       <==> && request in s.requests
            && m.noted && A.CheckPath(s.requests[request].path, m.drive, m.onDisk).Some? && m.readable
            && m.fault.NoFault? && m.started
            && Admission(token, device, request, m.now).None?
            && token.nonce != "" && token.nonce !in s.ledger && SameHash(token.sha256, m.hash)
  {
    A.AdmissionIsNeverValid(token, device, request, m.now);
    hide Admission;
    hide A.CheckPath;
    hide SameHash;
  }

  /**
   * An approved decision with a committed token starts its process exactly when the agent tracks the
   * request under the hyphenated text of its id and nothing stands in the way.
   */
  lemma IssuedTokenLaunchesIff(s: B.State, id: Uuid, agent: A.State, m: A.Surroundings)
    requires Inv(s) && id in s.db.approvals
    ensures Delivered(s, id, agent, m).launches != []
       <==> && Hyphenated(id) in agent.requests
            && NothingInTheWay(s.db.approvals[id], agent.requests[Hyphenated(id)].path, agent.ledger, m)
  {
    hide Inv;
    hide Admission;
    hide A.CheckPath;
    hide A.HandleDecision;
    hide Hyphenated;
    hide YearOfMicros;
    hide SameHash;
    var a := s.db.approvals[id];
    IssuedTokenIsAdmittedIff(s, id, m.now);
    ApprovedLaunchesIff(agent, Hyphenated(a.device), Hyphenated(id), B.TokenOf(id, a), m);
  }

  /** The agent tracks the request whose id is written in `text`, under that text and no other spelling. */
  predicate TracksUnder(agent: A.State, text: string) {
    && text in agent.requests && ParseUuid(text).Some?
    && forall k :: k in agent.requests && ParseUuid(k) == ParseUuid(text) ==> k == text
  }

  /**
   * A request that an agent submitted under some text the backend accepts is launched, once approved
   * and delivered, exactly when that text was lower-case and hyphenated and nothing stands in the way.
   */
  lemma SubmittedTextIsHonouredIff(s: B.State, text: string, agent: A.State, m: A.Surroundings)
    requires Inv(s) && TracksUnder(agent, text) && ParseUuid(text).value in s.db.approvals
    ensures Delivered(s, ParseUuid(text).value, agent, m).launches != []
       <==> && IsCanonicalUuidText(text)
            && NothingInTheWay(s.db.approvals[ParseUuid(text).value], agent.requests[text].path, agent.ledger, m)
  {
    hide Inv;
    hide Delivered;
    hide NothingInTheWay;
    hide Hyphenated;
    hide ParseUuid;
    hide IsCanonicalUuidText;
    var id := ParseUuid(text).value;
    PreservedVerbatimIff(text);
    ParseUndoesBothTexts(id);
    IssuedTokenLaunchesIff(s, id, agent, m);
  }

  /** Under the 32 digits the agent really uses, an approved request is never launched, and stays as it was. */
  lemma DigitsAreNotHonoured(s: B.State, id: Uuid, agent: A.State, m: A.Surroundings)
    requires id in s.db.approvals && TracksUnder(agent, Digits32(id))
    ensures Delivered(s, id, agent, m) == A.Handled(agent, [], false)
  {
    ParseUndoesBothTexts(id);
    PolledIdIsNeverATrackedKey(id, id);
    hide ParseUuid;
    hide A.Execute;
  }
}
