# ElevateGate approval protocol in Dafny

ElevateGate lets a user of a managed Windows machine ask for one installer to be run with elevated
rights. The agent on the machine submits the request; an administrator, or the app allowlist, approves
it in the backend; the backend signs an approval; the agent polls for it, checks it and starts the
process. This project models that protocol from end to end and proves what it is for: nothing runs that
was not approved, and nothing runs twice.

Run `dafny verify dfyconfig.toml`.

## How the model is built

| file | content |
|---|---|
| `Common`, `Utf8`, `Timestamp`, `CanonicalPayload` | ids, text encoding, expiry text and the signed payload, with the two builders and a decoder |
| `WindowsPaths` | path canonicalization and the path validator |
| `Wire`, `TokenValidation` | the token, the ordered checks on it, and the nonce ledger |
| `Allowlist` | groups, devices, allowlist entries, and matching |
| `Backend`, `BackendInvariant`, `BackendSafety`, `BackendTheorems` | the backend as a transition system, its inductive invariant, the preservation lemmas, and the results |
| `BackendProgress` | each handler run undisturbed commits exactly what it is for, and what happens when it is disturbed |
| `BackendHistory` | which calls every committed row leads back to, and that reviews and expiries are on the right side of the clock |
| `Agent` | the agent as single steps, and the worker classes proved against the same functions |
| `System`, `SystemTheorems` | backend, network and agents together, and the results about launches |
| `SystemHistory` | which submission on the machine each launch leads back to |
| `SystemProgress`, `LaunchRun` | the other direction: what the protocol lets through, and a whole run that launches |
| `Delivery` | polling cycles and their watermark beside a backend run: which decisions are ever told |
| `Enrollment`, `UpdateFlag` | double-checked enrollment, and the update-request flag |

**Backend.** Each handler is a transaction of separate statements: read, expiry test, conditional UPDATE,
signing, insert, audit row, commit. Any number of them interleave, and each may roll back at any point.
The rows a transaction has written are its own until it commits, and they lock the rows they replace.
PostgreSQL READ COMMITTED is assumed: a statement that meets a held row waits and then evaluates its
condition on what the holder left. A duplicate request id, a second approval for a request and a
duplicate nonce each lose the transaction. Requests, approvals and devices are named by their unique
keys (`request_uuid`, `elevation_request_id`, `device_uuid`). Clocks, nonces and time-to-live settings are
arbitrary at every use. The expiry sweep goes row by row and may commit after any subset of the stale
rows, which allows more than the bulk UPDATE does.

**Network.** A decision that reaches an agent is arbitrary: dropped, repeated, reordered, altered, with
any status and any token. Ed25519 (RFC 8032) is ideal: the only signatures that verify are the backend's,
and one that reaches an agent must have left in a poll response. A signature that was made in a transaction
that rolled back was never released. That an altered token is refused therefore rests on the payload being
injective, which is proved and not assumed.

**Agent.** The nonce ledger survives a restart; the tracked requests and the decision being worked on do
not. A restart or an exception may fall between any two steps. One process holds a device's credential at
a time and handles decisions one after the other, as the polling loop does. The agent's steps say what an
interleaving may cut apart; the classes `RequestStateStore`, `SqliteNonceStore`, `ApprovalTokenValidator`
and `ApprovalPollingWorker` are the code's own objects, and `HandlingIsARun` ties the two together.
Request ids are arbitrary texts on the agent's side, so the safety results hold for every id format.

## Where the code and its promises differ

- **Request ids.** `docs/API_CONTRACT.md:426` and `backend/app/schemas/agent_wire.py:91-94` say the agent's
  request id is preserved verbatim. The backend reads it as a UUID and answers with the hyphenated lower-case
  text, so the promise holds if and only if the text sent was of that form (`Common.PreservedVerbatimIff`).
  The agent sends and tracks the 32 digits of a GUID (`RequestCoordinator.cs:79`), which is not. No polled id is
  then ever a tracked key, an approval that is delivered changes nothing (`SystemProgress.DigitsAreNotHonoured`),
  and no run launches anything (`SystemTheorems.Digits32KeysNeverLaunch`). The model follows the code. Reading
  follows what `uuid.UUID` fields of pydantic accept: 32 digits of either case, plain, hyphenated, or
  hyphenated inside braces or after `urn:uuid:`.
- **Expiry text.** `backend/app/core/signing.py:32-43` claims byte-for-byte equality with .NET. Whether `%Y` is
  padded below the year 1000 is a property of the Python runtime, not of this source; the model takes one that
  does not pad, and there the texts agree if and only if the year is at least 1000 (`Timestamp.TextsAgree`;
  `Timestamp.TextsDifferInYearOne` is a failing instant). An expiry that the backend issues is the present plus
  a lifetime, so no issued token has such a year.
- **A local Approved is not final.** What changes it, and nothing else: a DENIED or EXPIRED for that request,
  which no signature protects; an approved decision without a token; and one with any token, the request's own
  included, whose nonce is spent by then, which turns it into Failed. It stays if the audit log, the file or the
  validator throws before (`SystemTheorems.ApprovedSurvivesIff`). None of them launches anything again.
- **Not every decision reaches the agent.** The watermark moves to the clock after the batch
  (`Agent.ApprovalPollingWorker.Cycle`). A decision reaches its device if and only if the watermark of the first
  answered poll after its commit is not past its review time (`Delivery.ToldEverIffToldFirst`), and one that is
  committed while a batch is handled can be lost (`Delivery.SomeDecisionIsLost`). What is delivered under a text
  that was preserved is honoured (`SystemProgress.SubmittedTextIsHonouredIff`).

## Model

| member | source | states |
|---|---|---|
| `SystemTheorems.EveryLaunchIsAuthorized` | src/ElevateGate.Service/Execution/ExecutionEngine.cs:38-76 | In every run of backend, network and restarting agents, each process ever started has a committed approval for that device and request; the request is APPROVED; the approval's hash is the hash read from the file, up to letter case; its expiry was after the agent's clock at the check; and the path started is the path tracked at submission, in canonical form. |
| `SystemTheorems.EachRequestIsLaunchedAtMostOnce` | src/ElevateGate.Service/Workers/ApprovalPollingWorker.cs:46-127 | No two launches of a run name the same request, on one agent or on two, whatever is redelivered, however cycles fail, however often agents restart and whatever the clocks do. |
| `SystemTheorems.EveryLaunchWasAskedFor` | backend/app/api/v1/elevation_requests.py:111-158 | Every launch leads back through the whole run to calls that were made: the same device submitted that very request with the hash of the launched file up to case, and either an administrator called approve for it or its agent submitted it as trusted with a publisher. |
| `SystemHistory.EveryLaunchWasSubmitted` | src/ElevateGate.Service/RequestTracking/RequestCoordinator.cs:55-82 | Every launch leads back to two events of the run on that same agent, after its last restart: it submitted that request for a raw path whose canonical form is the path launched, an installer then there on a fixed drive; and, as the last file it read before the launch, it found that path there again on a fixed drive, with the launched hash. |
| `SystemTheorems.ShownApprovedWasLaunched` | src/ElevateGate.Service/Workers/ApprovalPollingWorker.cs:107-120 | A request an agent shows as Approved was launched by that agent. |
| `SystemTheorems.RefusedRequestNeverRuns` | src/ElevateGate.Service/Workers/ApprovalPollingWorker.cs:75-127 | Once DENIED or EXPIRED is committed for a request, in every continuation no launch names it and no agent shows it as Approved, under any text that is read as its id: hyphenated, 32 digits, or another spelling. |
| `SystemTheorems.Digits32KeysNeverLaunch` | src/ElevateGate.Service/RequestTracking/RequestCoordinator.cs:79 | With the keys the agent really uses (32 digits, no hyphens), no run launches anything: the safe but unwanted consequence of the two id texts. |
| `SystemTheorems.HandlingKeepsWorldInv` | src/ElevateGate.Service/Workers/ApprovalPollingWorker.cs:75-127 | Handling one delivered decision in one go keeps the invariant from which the launch results follow. |
| `System.AdmittedTokenIsApproved` | src/ElevateGate.Core/Validation/ApprovalTokenValidator.cs:50-63 | A deliverable token that passes signature, device, request and expiry on an agent is one the backend committed: same device, request and nonce, hash up to case, same expiry instant, request APPROVED. No altered field survives. |
| `System.AgentStepKeepsWorldInv` | src/ElevateGate.Service/Execution/ExecutionEngine.cs:38-107 | Each single agent step, a restart included, keeps the protocol invariant. |
| `System.BackendStepKeepsWorldInv` | backend/app/api/v1/elevation_requests.py:94-204 | Each single backend step keeps the protocol invariant, including what running agents rely on. |
| `System.RunKeepsWorldInv` | src/ElevateGate.Service/Workers/ApprovalPollingWorker.cs:46-127 | The protocol invariant holds at the end of every run from a state where it holds. |
| `BackendProgress.UndisturbedApprovalCommits` | backend/app/api/v1/elevation_requests.py:111-158 | From any state meeting the invariant, an approval in time of a pending request whose row and nonce nobody else holds runs to its commit and changes exactly three things: the request's status, reviewer and review time, its signed approval, and one audit row. |
| `BackendProgress.UndisturbedDenialCommits` | backend/app/api/v1/elevation_requests.py:161-204 | A deny in time of a pending request whose row nobody else holds runs to its commit and changes exactly two things: the row (DENIED, that admin, that time) and one DeniedBy audit row. |
| `BackendProgress.UndisturbedStaleReviewExpires` | backend/app/api/v1/elevation_requests.py:94-108 | An approve or a deny whose clock is at or past the expiry commits EXPIRED, with no reviewer, at that time, and writes nothing else. |
| `BackendProgress.TheLoserWaits` | backend/app/repositories/elevation_request_repository.py:145-153 | A review whose row another transaction holds waits; it goes through if that one rolls back, and loses if that one commits. |
| `BackendProgress.HeldRowsAreWaitedFor` | backend/app/models/elevation_request.py:20-22 | An insert of a request, of an approval or of a nonce, and a claim of an approval, wait while another transaction in flight holds the same key; they do not lose. |
| `BackendProgress.DuplicatesLose` | backend/app/models/approval.py:21-26 | A second request under a committed id, a second approval of a request, and a nonce used before lose the transaction. |
| `BackendProgress.UndisturbedSweepExpires` | backend/app/repositories/elevation_request_repository.py:116-133 | The sweep of a device commits its pending request as EXPIRED at the sweep's time, once that is at or past the expiry. |
| `BackendProgress.UndisturbedConsumptionCommits` | backend/app/api/v1/approvals.py:31-56 | The callback of an approval's own device, not consumed before, commits the time and one audit row and nothing else. |
| `SystemProgress.IssuedTokenIsAdmittedIff` | src/ElevateGate.Core/Validation/ApprovalTokenValidator.cs:50-63 | The agent accepts the token of a committed approval if and only if it has not expired and its expiry year is at least 1000: what the backend signs, the agent can verify. |
| `SystemProgress.IssuedTokenLaunchesIff` | src/ElevateGate.Service/Execution/ExecutionEngine.cs:38-107 | A delivered token of a committed approval starts a process if and only if the agent tracks the request under the hyphenated text of its id, the path still validates, the file is readable and has the approved hash, the token has not expired (with a four-digit year), the nonce is fresh, the audit log takes its first row, the ledger's database works, and the process starts. |
| `SystemProgress.SubmittedTextIsHonouredIff` | src/ElevateGate.Service/RequestTracking/RequestCoordinator.cs:79-82 | A request that an agent tracks under some text the backend accepts is launched, once approved and delivered, if and only if that text is lower-case and hyphenated and nothing else stands in the way. |
| `SystemProgress.DigitsAreNotHonoured` | src/ElevateGate.Service/Workers/ApprovalPollingWorker.cs:77-82 | Under the 32 digits the agent really uses, a delivered approval changes nothing: no launch, no status, no spent nonce. |
| `LaunchRun.SomeRunLaunches` | src/ElevateGate.Service/Execution/ExecutionEngine.cs:38-107 | For every device and request there is a run of backend, network and agent from the empty database that launches exactly once, that request on that device. The agent of this run tracks the request under the hyphenated text; under the 32 digits the code uses, no run launches. |
| `LaunchRun.LaunchFollows` | src/ElevateGate.Service/Workers/ApprovalPollingWorker.cs:66-127 | From any state meeting the backend's invariant: submission, auto-approval look-up, approval, poll, delivery and execution, each undisturbed, run through and add exactly one launch, of that request and the canonical path submitted. |
| `BackendProgress.UndisturbedSubmissionCommits` | backend/app/api/v1/agent_compat.py:97-144 | A fresh agent submission that the allowlist does not cover runs to its commit and changes exactly two things: a PENDING row as submitted, and one audit row. |
| `BackendProgress.UndisturbedDashboardSubmissionCommits` | backend/app/api/v1/elevation_requests.py:27-61 | A fresh submission on the dashboard's route commits as PENDING for the configured seconds, its hash in lower case, with one audit row. |
| `BackendProgress.UndisturbedAutoApprovalCommits` | backend/app/api/v1/agent_compat.py:147-197 | A fresh trusted agent submission with a publisher that a global or same-group entry covers commits as APPROVED with no reviewer, with its signed approval and exactly two audit rows. |
| `BackendTheorems.AtMostOneDecisionCommits` | backend/app/api/v1/elevation_requests.py:94-204 | Of all approve, deny, sweep and auto-approval transactions of a run, however they interleave and abort, at most one commits a decision on any one request. |
| `BackendTheorems.AtMostOneConsumptionCommits` | backend/app/repositories/approval_repository.py:52-66 | Of all consumed callbacks of a run, however they interleave and abort, at most one commits for any one approval. |
| `BackendTheorems.DecisionsAreFinal` | backend/app/repositories/elevation_request_repository.py:136-163 | After a committed decision the request's row never changes again; an approval changes only by having its consumed time set, and never again once that is set. |
| `BackendTheorems.CommittedRowsAreConsistent` | backend/app/core/approvals.py:14-49 | In every committed state the approvals belong exactly to the APPROVED requests, each is a genuine signature over its own request, device, hash, expiry and nonce, nonces are unique, and reviewed_at is set exactly on decided requests. |
| `BackendTheorems.PollShowsOwnDecisions` | backend/app/api/v1/agent_compat.py:242-291 | A poll answer names only the asking device's requests, only decided ones, with a token exactly on the APPROVED ones, made out to that device and request. |
| `BackendTheorems.PollsOnlyGrow` | backend/app/repositories/approval_repository.py:69-85 | For a fixed device and watermark, a later poll contains every decision of an earlier one, with status and token unchanged. |
| `BackendTheorems.OfferedForEverOrNever` | backend/app/repositories/approval_repository.py:69-85 | At any later time a committed decision is offered if and only if the asker is its device and the watermark is not past its review time; so a watermark moved past it loses it for good. |
| `Delivery.ToldEverIffToldFirst` | src/ElevateGate.Service/Workers/ApprovalPollingWorker.cs:46-73 | For every backend run and every sequence of polling cycles on a clock that does not go back: the device is told of a committed decision in some answer if and only if it is its own and, at the first answered poll after the commit, the watermark is not past its review time. |
| `Delivery.ToldEverIffHandled` | src/ElevateGate.Service/Workers/ApprovalPollingWorker.cs:53-62 | The device is told of a decision at all if and only if it is told in the first cycle that completes after polling it: what failed cycles were told is told again, and nothing later makes up for it. |
| `Delivery.LostDuringABatch` | src/ElevateGate.Service/Workers/ApprovalPollingWorker.cs:56-57 | A decision committed after the poll of a completed cycle and reviewed before that cycle's end is told in no cycle, earlier or later. |
| `Delivery.SomeDecisionIsLost` | src/ElevateGate.Service/Workers/ApprovalPollingWorker.cs:56-57 | It happens: for every device and request there is a run that approves the request while a batch is being handled, and no further polling ever tells the device. |
| `BackendTheorems.AuditIsConserved` | backend/app/core/audit.py:7-31 | In every committed state the audit log holds exactly one row for each fact the tables show and none besides: a submission (by its device, of its filename and hash), an admin approval (by that admin, under that nonce), an auto-approval (under that nonce), a denial (by that admin) and a consumption (by its device); aborted work leaves none. |
| `BackendTheorems.BornApprovedIff` | backend/app/api/v1/agent_compat.py:131-182 | In every run, an agent submission that commits was looked up earlier in that run by its own transaction, and commits APPROVED if and only if, in the state of that look-up, its signature is trusted, it names a publisher, and a global or same-group entry matches exactly; otherwise it commits PENDING. A dashboard-route submission always commits PENDING. |
| `BackendTheorems.SubmissionReadItsGroup` | backend/app/api/v1/agent_compat.py:162-167 | In every run, the group a submission in flight is looked up with is the one its device had when its call began. |
| `BackendTheorems.HitIff` | backend/app/api/v1/agent_compat.py:157-169 | The lookup step selects an entry if and only if the signature is trusted, a publisher is named, and some entry has that publisher and filename and is for every device or for the device's group. |
| `BackendTheorems.CommitExtends` | backend/app/api/v1/elevation_requests.py:126-156 | A commit keeps every submitted field, every decided row and every signed token of the state before it. |
| `BackendTheorems.OnlyCommitWrites` | backend/app/core/audit.py:16-20 | Every step but the commit of a finished handler leaves the committed tables as they were. |
| `BackendHistory.EveryRowIsTraceable` | backend/app/api/v1/elevation_requests.py:25-204 | Every committed request shows what some begun submission said, its hash up to case; and some begun call explains its status: approve or deny by the reviewer it names, an eligible agent submission for an approval without reviewer, a review or its own device's poll for EXPIRED. |
| `BackendHistory.ExpiredOnlyAfterExpiry` | backend/app/repositories/elevation_request_repository.py:116-133 | A request commits EXPIRED only with a review time not before its expiry. |
| `BackendHistory.ReviewsAreInTime` | backend/app/api/v1/elevation_requests.py:97-134 | An approve or deny UPDATE that matches follows a clock reading of its handler before the request's expiry. |
| `BackendHistory.ConsumedByItsDevice` | backend/app/api/v1/approvals.py:31-43 | An approval is marked consumed only by a call of the device it was issued to. |
| `BackendSafety.ReachableInv` | backend/app/api/v1/elevation_requests.py:25-204 | Every state of every run from the empty database meets the backend invariant. |
| `BackendSafety.NextKeepsInv` | backend/app/api/v1/elevation_requests.py:94-204 | Any event - a statement of any transaction, a commit, an abort, a poll, an administrative change - keeps the invariant. |
| `BackendSafety.InsertRequestKeepsInv` | backend/app/repositories/elevation_request_repository.py:11-51 | Inserting a request under the unique request_uuid, losing or waiting on a duplicate, keeps the invariant. |
| `BackendSafety.ReadPendingKeepsInv` | backend/app/api/v1/elevation_requests.py:94-124 | The read, the pending test and the expiry test of approve and deny keep the invariant without locking the row. |
| `BackendSafety.ExpireStaleKeepsInv` | backend/app/api/v1/elevation_requests.py:94-108 | Expiring a stale request at the start of approve or deny keeps the invariant, also when another transaction decided it since the read. |
| `BackendSafety.DecideKeepsInv` | backend/app/repositories/elevation_request_repository.py:136-163 | The conditional UPDATE of approve and deny keeps the invariant: it waits for a row held elsewhere and matches nothing once that row is decided. |
| `BackendSafety.AutoDecideKeepsInv` | backend/app/api/v1/agent_compat.py:147-180 | The allowlist lookup and the auto-approving UPDATE keep the invariant. |
| `BackendSafety.SignKeepsInv` | backend/app/core/approvals.py:26-38 | Signing before the insert keeps the invariant: a signature that is never committed is never released. |
| `BackendSafety.InsertApprovalKeepsInv` | backend/app/repositories/approval_repository.py:12-35 | Inserting the approval under both uniqueness constraints keeps the invariant; a clash loses the whole transaction. |
| `BackendSafety.ClaimConsumedKeepsInv` | backend/app/repositories/approval_repository.py:52-66 | Setting consumed_at only where it is NULL keeps the invariant. |
| `BackendSafety.WriteAuditKeepsInv` | backend/app/core/audit.py:7-31 | Staging an audit row in the same transaction keeps the invariant. |
| `BackendSafety.SweepRowKeepsInv` | backend/app/repositories/elevation_request_repository.py:116-133 | One row of the bulk expiry keeps the invariant. |
| `BackendSafety.CommitKeepsInv` | backend/app/api/v1/elevation_requests.py:146-156 | Publishing a finished transaction's rows keeps the invariant for the tables and for every transaction still in flight. |
| `BackendSafety.PollKeepsInv` | backend/app/api/v1/agent_compat.py:268-291 | Releasing the tokens of committed rows keeps every released payload backed by a committed approval. |
| `BackendInvariant.CommittedCellOk` | backend/app/models/approval.py:21-26 | A request and its approval stay consistent when a finished handler's rows are laid over them. |
| `BackendInvariant.SubmitAudit` | backend/app/api/v1/agent_compat.py:131-197 | The audit rows a finished submission has staged are exactly the difference between what the tables call for before and after its commit. |
| `BackendInvariant.ApproveAudit` | backend/app/api/v1/elevation_requests.py:146-156 | The same for approve, in each of its three endings. |
| `BackendInvariant.DenyAudit` | backend/app/api/v1/elevation_requests.py:192-202 | The same for deny. |
| `BackendInvariant.ConsumeAudit` | backend/app/api/v1/approvals.py:40-56 | The same for the consumed callback. |
| `BackendInvariant.SweepAudit` | backend/app/repositories/elevation_request_repository.py:116-133 | The sweep, which writes no audit row, changes nothing the audit log has to account for. |
| `Allowlist.ApplyKeepsValid` | backend/alembic/versions/0004_device_groups_and_allowlist.py:40-62 | Every administrative operation keeps all group references valid and group names unique. |
| `Allowlist.DeleteGroupRemovesExactlyItsEntries` | backend/app/api/v1/device_groups.py:64-87 | Deleting a group takes from every device's matches exactly the entries scoped to that group, so no app matches that did not match before. |
| `Allowlist.OnlyGrantsAddMatches` | backend/app/repositories/app_allowlist_repository.py:41-66 | Over any run of administrative operations that neither creates an entry for the app nor re-assigns the device, no match appears, also when group or entry ids are used again. |
| `Allowlist.MatchesIff` | backend/app/repositories/app_allowlist_repository.py:51-60 | An entry matches if and only if its publisher and filename are equal to those asked for and it has no group or the group asked for. |
| `Allowlist.EntriesComeAndGo` | backend/app/repositories/app_allowlist_repository.py:7-25 | A new entry, if its group exists, adds exactly itself to the matches it covers; a deleted one is taken from all. |
| `Allowlist.GroupsComeAndGo` | backend/app/api/v1/devices.py:137-165 | An enrolled device has the group it was last assigned, if that exists, and none once that is deleted; other devices keep theirs. |
| `Allowlist.CreatedGroup` | backend/app/api/v1/device_groups.py:15-40 | A group is created exactly when no group has its name; every other group stays. |
| `Allowlist.StaleGroupMatchesOnlyGlobalEntries` | backend/app/repositories/app_allowlist_repository.py:51-62 | A submission that read its group before the group was deleted then matches what a device without a group matches. |
| `CanonicalPayload.RebuiltBytesEqualSignedBytes` | backend/app/core/signing.py:78-84 | The agent's bytes equal the signed bytes if and only if device, request and nonce agree, the hashes agree up to case, the expiry is the same instant, and its year is at least 1000. |
| `CanonicalPayload.DecodeUndoesPayload` | backend/app/core/signing.py:50-84 | A payload is built exactly when each field fits in 65535 bytes of UTF-8, and a decoder returns its five fields. |
| `CanonicalPayload.PayloadLayout` | backend/app/core/signing.py:50-84 | The bytes themselves: 1, then each of the five fields as its length in two bytes, high byte first, and its UTF-8; built exactly when no field has more than 65535 bytes. |
| `CanonicalPayload.PythonPayloadIff` | backend/app/core/signing.py:58-84 | When the backend's builder fails, and with which error; otherwise its bytes decode to device, request, lower-case hash, expiry text and nonce. |
| `CanonicalPayload.DotnetPayloadIff` | src/ElevateGate.Core/Crypto/CanonicalApprovalPayload.cs:16-31 | The same for the agent's builder, which fails on too long a field only. |
| `CanonicalPayload.PayloadInjective` | backend/app/core/signing.py:73-75 | Equal payloads have equal fields. |
| `CanonicalPayload.BuildCanonicalPayload` | backend/app/core/signing.py:58-84 | The backend's builder returns the payload of the five fields, or the first of its errors in the order it meets them (too long a field, naive or out-of-range expiry). |
| `CanonicalPayload.Build` | src/ElevateGate.Core/Crypto/CanonicalApprovalPayload.cs:16-31 | The agent's builder returns the payload of the five fields, the expiry in the .NET text, or an error for too long a field. |
| `CanonicalPayload.PayloadBuffer.WriteField` | src/ElevateGate.Core/Crypto/CanonicalApprovalPayload.cs:33-43 | A field that fits is appended as big-endian length and bytes; one that does not leaves the buffer untouched and fails. |
| `CanonicalPayload.ReadFieldsUndoesConcat` | backend/app/core/signing.py:50-55 | A run of length-prefixed fields of any number is read back field by field. |
| `Utf8.DecodeUndoesEncode` | backend/app/core/signing.py:50-51 | UTF-8 text decodes to the string it encodes. |
| `Utf8.EncodingFollowsTheTable` | backend/app/core/signing.py:50-51 | Each character takes the number of bytes, the lead byte and the continuation bytes that the table of section 3 of RFC 3629 gives it. |
| `Timestamp.TextsAgree` | backend/app/core/signing.py:32-47 | Six digits and a zero are the seven-digit .NET text of the same instant if and only if the year is at least 1000. |
| `Timestamp.TextsDifferInYearOne` | backend/app/core/signing.py:47 | At the first instant of the year 1 the two texts differ. |
| `Timestamp.EqualTextsAreOneInstant` | backend/app/core/signing.py:32-47 | A text of the agent that equals a text of the backend is of the same instant. |
| `Timestamp.InstantUndoesDotnetText` | src/ElevateGate.Core/Crypto/CanonicalApprovalPayload.cs:28 | The .NET expiry text of any instant of the years 1 to 9999 decodes to that instant, hence is injective. |
| `Timestamp.CivilRoundTrip` | src/ElevateGate.Core/Crypto/CanonicalApprovalPayload.cs:28 | Every day number is the day number of the calendar date computed for it. |
| `Timestamp.CalendarAdvances` | src/ElevateGate.Core/Crypto/CanonicalApprovalPayload.cs:28 | Day 0 is 1 January of the year 1, and the date of each day is the one after the day before's, by the lengths of the Gregorian months. |
| `Timestamp.DotnetTextShows` | src/ElevateGate.Core/Crypto/CanonicalApprovalPayload.cs:28 | The text has the form yyyy-MM-ddTHH:mm:ss.fffffff+00:00, with the date, the time of day and the ticks in their places. |
| `Timestamp.PythonYearIsUnpadded` | backend/app/core/signing.py:47 | The modelled year is its decimal digits without a leading zero. |
| `Timestamp.UtcOfIff` | backend/app/core/signing.py:44-46 | The instant of a datetime is its wall clock less its offset; a naive one is an error. |
| `Common.HyphenatedInjective` | backend/app/core/approvals.py:32-33 | The hyphenated id text names one id. |
| `Common.PolledIdIsNeverATrackedKey` | src/ElevateGate.Service/RequestTracking/RequestCoordinator.cs:79 | The 32-digit id an agent tracks never equals the hyphenated id of a poll answer. |
| `Common.PreservedVerbatimIff` | backend/app/schemas/agent_wire.py:91-96 | Of all texts the backend accepts as a request id, it answers with the very text it was sent if and only if that is lower-case hexadecimal with hyphens after 8, 12, 16 and 20 digits. |
| `Common.ParseUndoesBothTexts` | backend/app/schemas/agent_wire.py:96-97 | Both the hyphenated and the 32-digit text of an id are read back as that id. |
| `Common.ParsesIff` | backend/app/schemas/agent_wire.py:96-97 | The texts read as an id are its two texts in any case, and the hyphenated one in braces or after urn:uuid:, and no others. |
| `Common.LowerAgreesIff` | src/ElevateGate.Core/Validation/ApprovalTokenValidator.cs:71 | Two texts agree in lower case if and only if they agree place by place up to the case of a letter. |
| `Common.LowerIsLowerCase` | backend/app/core/signing.py:81 | Lower-casing leaves no capital and changes nothing but case. |
| `TokenValidation.ApprovalTokenValidator.Validate` | src/ElevateGate.Core/Validation/ApprovalTokenValidator.cs:41-75 | Verdict and ledger are those of the ordered checks: signature, device, request, expiry, nonce spent, hash; a field too long, an empty nonce, or a database that throws before or after the row is written ends in an exception. |
| `TokenValidation.SqliteNonceStore.TryConsume` | src/ElevateGate.Infrastructure/Persistence/SqliteNonceStore.cs:34-47 | True exactly for a non-empty nonce that was not in the ledger, which is in it afterwards; an empty nonce or a failing database throws, and the nonce is in the ledger only if the row was written by then. |
| `TokenValidation.ValidIff` | src/ElevateGate.Core/Validation/ApprovalTokenValidator.cs:41-75 | Valid if and only if all six conditions hold at once and the database works, stated without the order of the checks. |
| `TokenValidation.RefusedIff` | src/ElevateGate.Core/Validation/ApprovalTokenValidator.cs:50-74 | Each reason for refusal is given exactly when its own check fails and all checks before it pass, and exactly when an exception comes instead. |
| `TokenValidation.LedgerAfter` | src/ElevateGate.Core/Validation/ApprovalTokenValidator.cs:65-69 | A validation adds the nonce to the ledger exactly when the checks before it passed, the nonce is not empty and the row was written. |
| `TokenValidation.LedgerRecordsExactlyTheVisits` | src/ElevateGate.Core/Validation/ApprovalTokenValidator.cs:50-69 | After any interleaving of validations a nonce is in the ledger if and only if it was on disk or, not empty, was presented by a call of this run that passed signature, device, request and expiry on the clock it read at its check, and afterwards went on to the ledger; all read off the steps of the run alone. |
| `TokenValidation.EachNonceIsValidAtMostOnce` | src/ElevateGate.Core/Validation/ApprovalTokenValidator.cs:65-74 | Of two calls that reach the ledger with one nonce the later is told NonceReused, whatever the earlier was told, a hash mismatch included. |
| `TokenValidation.VisitIsAnswered` | src/ElevateGate.Core/Validation/ApprovalTokenValidator.cs:67-74 | What the caller of each call that reaches the ledger is told: used, unless it is the first ever with its nonce, and then valid or hash mismatch as its hash says. |
| `TokenValidation.ValidComesFromAFirstVisit` | src/ElevateGate.Core/Validation/ApprovalTokenValidator.cs:41-75 | A caller that was told Valid passed the checks on a clock reading of its own, was the first ever with its nonce, and brought the signed hash. |
| `Agent.RequestStateStore.UpdateStatus` | src/ElevateGate.Service/RequestTracking/RequestStateStore.cs:20-26 | Changes one status and keeps its path; throws, changing nothing, on an unknown request. |
| `Agent.RequestCoordinator.Submit` | src/ElevateGate.Service/RequestTracking/RequestCoordinator.cs:47-100 | What is tracked and answered for every submission: nothing for a blank, unacceptable or unreadable one; else the canonical path under 32 digits, Pending if it was sent and Failed if not. |
| `Agent.SubmittingIsARun` | src/ElevateGate.Service/RequestTracking/RequestCoordinator.cs:79-93 | A submission is a run of single steps of the protocol model that leaves the same tracked request. |
| `Agent.ApprovalPollingWorker.ExecuteToken` | src/ElevateGate.Service/Execution/ExecutionEngine.cs:38-107 | Path check, hash, validation and start in the order of the code; adds at most the one launch its specification names, and spends the nonce before it. |
| `Agent.CheckPathIff` | src/ElevateGate.Service/Execution/ExecutionEngine.cs:41-63 | A path passes the check, at submission and at execution, if and only if it canonicalizes, its drive is fixed, the file is there, and the result ends in .exe or .msi in any case. |
| `Agent.ApprovalPollingWorker.Handle` | src/ElevateGate.Service/Workers/ApprovalPollingWorker.cs:75-127 | The effect of one decision on tracked requests, ledger and launches, also when a local audit row, the file, the validator or the ledger's database throws: what was done by then stays done, and the batch ends. |
| `Agent.StatusAfterHandling` | src/ElevateGate.Service/Workers/ApprovalPollingWorker.cs:75-127 | What the agent shows after a decision: other requests and all paths as before; Denied and Expired as they come; after an approval Approved if and only if it launched a process that succeeded (or was shown before and an exception came first), Failed in every other case without an exception; and exactly when the cycle ends by an exception. |
| `Agent.LedgerAfterHandling` | src/ElevateGate.Service/Workers/ApprovalPollingWorker.cs:107-120 | The ledger changes only when an approved decision gets as far as the validator, and then as that leaves it. |
| `Agent.ApprovalPollingWorker.PollOnce` | src/ElevateGate.Service/Workers/ApprovalPollingWorker.cs:66-73 | The effect of a batch: its decisions in order, up to the first exception. |
| `Agent.BatchFromTheFront` | src/ElevateGate.Service/Workers/ApprovalPollingWorker.cs:69-72 | The first decision of a batch is handled, and the others after it in the state it left, unless it threw; their launches add up. |
| `Agent.ApprovalPollingWorker.Cycle` | src/ElevateGate.Service/Workers/ApprovalPollingWorker.cs:53-62 | The watermark moves to the clock if and only if the whole batch was handled; a failed poll changes nothing. |
| `Agent.HandlingIsARun` | src/ElevateGate.Service/Workers/ApprovalPollingWorker.cs:75-127 | Handling a decision in one go is a run of the single steps of the protocol model, with the same end state and the same launches. |
| `Agent.RedeliveryTurnsApprovedIntoFailed` | src/ElevateGate.Service/Workers/ApprovalPollingWorker.cs:118-120 | A launched decision that is delivered again launches nothing, whatever has changed on the machine; its status becomes Failed unless the audit log, the file or the ledger's database throws before that. |
| `SystemTheorems.ApprovedSurvivesIff` | src/ElevateGate.Service/Workers/ApprovalPollingWorker.cs:75-127 | A request shown as Approved stays so under a delivered decision, of any status and token the network can deliver, if and only if the decision is about another request, its status is one the agent ignores, or an exception of the audit log, the file or the validator comes first. Every other decision changes it. |
| `WindowsPaths.TryCanonicalize` | src/ElevateGate.Core/Validation/WindowsPathRules.cs:49-88 | The loop computes the canonical form, or rejects and returns the empty string. |
| `WindowsPaths.ContainsTraversalSegment` | src/ElevateGate.Core/Validation/WindowsPathRules.cs:33-41 | True exactly when some segment is two dots. |
| `WindowsPaths.AcceptedIff` | src/ElevateGate.Core/Validation/WindowsPathRules.cs:49-88 | Accepted if and only if drive-rooted with every segment a dot or clean; the traversal and blank tests reject nothing more. |
| `WindowsPaths.AcceptedCharacters` | src/ElevateGate.Core/Validation/WindowsPathRules.cs:18-82 | What is accepted, character by character: a letter, a colon, a separator, and segments that are one dot or hold none of the eight reserved characters and do not end in a dot or a space. |
| `WindowsPaths.SegmentsByRule` | src/ElevateGate.Core/Validation/WindowsPathRules.cs:12-64 | Splitting by its own rule: each backslash or slash divides, empty parts vanish, and a part without either is one segment. |
| `WindowsPaths.KeptByRule` | src/ElevateGate.Core/Validation/WindowsPathRules.cs:66-82 | Going through the segments drops each single dot and keeps every other segment in its place. |
| `WindowsPaths.MeaningPreserved` | src/ElevateGate.Core/Validation/WindowsPathRules.cs:62-87 | The result is the capital of the input's own drive letter, a colon, a backslash and exactly the input's segments without the single dots, all of them clean. |
| `WindowsPaths.SameResultIff` | src/ElevateGate.Core/Validation/WindowsPathRules.cs:49-88 | Two accepted paths have one result if and only if their drives agree up to case and their kept segments are equal. |
| `WindowsPaths.CanonicalizeIdempotent` | src/ElevateGate.Core/Validation/WindowsPathRules.cs:49-88 | An accepted result is accepted again, unchanged. |
| `WindowsPaths.CanonicalIff` | src/ElevateGate.Core/Validation/WindowsPathRules.cs:43-48 | The fixed points are exactly the upper-case drives followed by clean segments joined with backslashes. |
| `WindowsPaths.SegmentsUndoesJoin` | src/ElevateGate.Core/Validation/WindowsPathRules.cs:84-86 | Splitting a join of segments returns the segments. |
| `WindowsPaths.ValidateIff` | src/ElevateGate.Core/Validation/PathValidator.cs:17-44 | Accepted if and only if the path canonicalizes and its drive is classified as fixed; the result is the canonical form. |
| `WindowsPaths.RejectedIff` | src/ElevateGate.Core/Validation/PathValidator.cs:17-44 | Each reason for rejection, in terms of the text and of the class of the path's own drive. |
| `WindowsPaths.RevalidationKeepsThePath` | src/ElevateGate.Service/RequestTracking/RequestCoordinator.cs:55-82 | The path tracked at submission re-validates to itself exactly while its drive is classified as fixed, and never to another path. |
| `Enrollment.OneCredentialForAll` | src/ElevateGate.Service/Enrollment/DeviceCredentialStore.cs:44-68 | All successful calls, of all callers and across restarts, crashes and failures, return one credential. |
| `Enrollment.EnrollmentEndsWithTheFirstReturn` | src/ElevateGate.Service/Enrollment/DeviceCredentialStore.cs:44-89 | After the first successful return no continuation calls enroll. |
| `Enrollment.FirstCallEnrolls` | src/ElevateGate.Service/Enrollment/DeviceCredentialStore.cs:44-89 | On a machine that was never enrolled an undisturbed call enrolls once, saves, caches and returns what it was given. |
| `Enrollment.StoredCallReturns` | src/ElevateGate.Service/Enrollment/DeviceCredentialStore.cs:55-59 | After a restart an undisturbed call caches and returns what the file holds, without enrolling; a torn file fails it. |
| `Enrollment.RestartKeepsTheFile` | src/ElevateGate.Service/Enrollment/DeviceCredentialStore.cs:42-59 | A restart drops cache, lock and calls and keeps the file, so that the next undisturbed call returns what it holds. |
| `Enrollment.CachedCallReturns` | src/ElevateGate.Service/Enrollment/DeviceCredentialStore.cs:46-47 | With a cached credential a call returns it at once, whoever holds the lock. |
| `Enrollment.WaiterGetsTheCache` | src/ElevateGate.Service/Enrollment/DeviceCredentialStore.cs:49-53 | A call that waited while another one enrolled returns what that one cached. |
| `Enrollment.FailureFreesTheLock` | src/ElevateGate.Service/Enrollment/DeviceCredentialStore.cs:64-67 | A waiting call cannot get the lock while another has it, and can once that one failed or was cancelled. |
| `Enrollment.NextKeepsInv` | src/ElevateGate.Service/Enrollment/DeviceCredentialStore.cs:44-105 | Every step keeps the lock, cache and file in agreement. |
| `UpdateFlag.AnswerIff` | backend/app/api/v1/agent_compat.py:214-239 | A heartbeat is answered updateRequested if and only if an update was requested and every version-bearing agent heartbeat since the latest request, this one included, reported the version of that moment. |
| `UpdateFlag.FlagSummarizesHistory` | backend/app/repositories/device_repository.py:43-94 | The three stored fields say of the history: the version last reported on either route, whether an update is pending, and the version at the latest request. |
| `UpdateFlag.Device.RecordHeartbeat` | backend/app/repositories/device_repository.py:43-68 | Sets last_seen, and the version only when one is reported. |
| `UpdateFlag.Device.RequestDeviceUpdate` | backend/app/repositories/device_repository.py:71-86 | Sets the flag and snapshots the version. |
| `UpdateFlag.Device.HandleAgentHeartbeat` | backend/app/api/v1/agent_compat.py:200-239 | New state and answer are those of the specified step, clearing the flag only on another version. |
| `UpdateFlag.Device.HandleDashboardHeartbeat` | backend/app/api/v1/devices.py:94-109 | Records the version and leaves the flag and its snapshot. |

## Left out

- Delivery.ToldEverIffToldFirst: says which decisions an agent is told, not that any poll is ever answered; the clocks of agent and backend are one scale, and the agent's does not go back.
- Order of a poll answer: the set of decisions is modelled; the network reorders them anyway.
- Backend handlers, agent steps and the credential store are steps over values, because transactions, restarts and callers interleave inside them; update in place of ORM objects, and their aliasing within one session, are not captured.
- SystemTheorems.EveryLaunchIsAuthorized: speaks of the hash as it was read; the file may change between that read and the start of the process.
- TokenValidation.ApprovalTokenValidator.Validate: a null token or null field throws in the code and has no counterpart here.
- Utf8.DecodeUndoesEncode: strings are sequences of Unicode scalar values; lone UTF-16 surrogates are not represented.
- CanonicalPayload.RebuiltBytesEqualSignedBytes: lower-casing and hash comparison are the ASCII ones, which is what they do to hexadecimal text; other alphabets are not folded.
- Agent.RequestCoordinator.Submit: a reason of white space other than spaces, tabs and line ends counts as blank in .NET and not here; no path is affected, since no blank text is drive-rooted.
- The agent's file extension test is a case-insensitive `.exe` or `.msi` ending of the canonical path.
- BackendTheorems.AuditIsConserved: a row's time, the matched entry and its texts in an auto-approval, and a denial's reason are not modelled, nor are audit rows of enrollment and administration.
- BackendTheorems.BornApprovedIff: the device's group is the one read when the request was authenticated; the entry is looked up later, in the state of that moment.
- Enrollment.OneCredentialForAll: assumes that unprotect inverts protect and that nothing else removes or edits the credential file.
- Cryptography and hashing internals: Ed25519 is ideal, SHA-256 is an arbitrary text read from the file; Argon2id, JWT and DPAPI do not appear.
- UpdateFlag.AnswerIff: heartbeats and update requests run one after the other, each as one step; disk and memory telemetry are left out.
- Enrollment of devices in the backend, login, roles, rate limits, pagination, counts and alert thresholds: easy or external.
- Dashboard, tray application, named pipe, Windows interop, self-update, and install and seed scripts: no protocol state.
