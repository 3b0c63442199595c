# Delegation Fabric: the authorization protocol

A Dafny model of the Delegation Fabric services, with proofs. The Control Plane evaluates requests and issues signed
single-use grants, the Execution Gateway verifies and consumes them and calls adapters, the Worker drives durable tasks
from at-least-once events, and all three share one store. Under them lie the constraint engine, response projection, the
audit hash chain and its Firestore layout, and the JWS codec with its key cache.

`dafny verify dfyconfig.toml` checks everything.

## How it is organised

The handlers and stores are classes whose methods follow the source statement by statement (`Store.MemoryStore`,
`ControlPlane.Server`, `Gateway.Server`, `Worker.Server`, `Erp.FileERPBackend`, `FirestoreAudit.FirestoreAuditLog`,
`Signer.JWSGrantVerifier`, `KeyCache.CachedKeyResolver`, `Projection.TreeNode`). Each method is proved to do what a
function of the old contents says, and the properties are proved about those functions.

What those functions decide and leave is said a second time without them, outcome by outcome, in states, fields, codes and
constants: `Evaluation` and `Effects` for the control plane, `Admission` and `Answers` for the gateway, and lemmas named
`...Exactly` beside the worker, the store, the constraint engine and the codec. The two accounts are proved to agree on every
input.

Two systems lift the handlers to runs.

- The **request-step** system (`Protocol`, with `Provenance`, `Origins`, `Guarantees`, `Calls`, `AuditRuns`, `Revocation`,
  `Completeness`)
  takes every HTTP request and every event delivery as one atomic step. `Reachable` worlds are those of any run from any
  start in which tasks may be in any state.
- The **interleaved** systems (`GrantRace` and `ApprovalRace` for grants; `TaskRace`, `TaskRuns` and `TaskLease` for
  tasks) take one step for each store call, with any number of requests in flight and crashes between calls. Creating a
  task that is missing is one step. In `GrantRace` other requests may change everything else in the store at any time, and any signed token may be
  presented, returned or not. In `TaskLease` attempts moreover keep to their lease.

`Refinement` ties the two together: requests whose store calls are not interleaved with others do what one request step does.

Assumed, and stated where it is used: hashing without collisions and with hexadecimal output (`Hashing.Ideal`), JSON that
gives headers and claims back (`Library.Faithful`), signatures that fit and verify under their own key (`Library.Signs`),
tokens that are not forged (`Signer.Unforged`; `Protocol.Enabled` admits only tokens that were signed), and identifiers
that are fresh. In the request-step system an audit append that fails has written nothing; `GrantRace.LoseRecord` also
allows one that has written its event. Payment provenance is proved for policies that ask payments for an approval by
someone other than the sponsor, an amount cap and a currency list (`GuardsPayments`); the default policy is one (`Baseline`).
Instants are integers in microseconds; times in tokens are whole seconds, rounded down.

Where code and documents differ the model follows the code. `docs/AUTHORIZATION.md` lists consumption of the grant before
the check of the actual arguments; the gateway checks the arguments first, so a violation does not consume the grant. The
constant `QUARANTINE_TRIGGERS` names two reason codes and is not used; the code also quarantines on a semantic denial
(`Completeness.QuarantiningDenials`).

## Model

| member | source | states |
|---|---|---|
| Guarantees.PaymentProvenance | packages/delegation_fabric_adapters/postgres/erp.py:85-98 | request-step: under a policy that guards payments, in every reachable world each payment was made by an adapter call under a consumed grant, with the amount in (0, max] and the currency listed, and the grant used an unexpired payment-batch approval that one approval request gave, by a user other than the one whose request made the delegation |
| Origins.ApprovalsAreDecisions | apps/control_plane/main.py:805-828 | request-step: in every reachable world each stored approval is what exactly one approval request decided: its task, delegation, type, subject, decision and user, until its own expiry |
| Origins.DelegationsAreRequested | apps/control_plane/main.py:340-393 | request-step: each stored delegation is what exactly one delegation request asked for: its sponsor, purpose, task, agents and regions, for at most ninety days |
| Origins.DecisionsAreStored | apps/control_plane/main.py:805-828 | request-step: and every decision, and every delegation made, is stored |
| Origins.ListedInOrder | packages/delegation_fabric_adapters/firestore/store.py:149-163 | request-step: approvals are listed in the order in which they were decided |
| Origins.CreatedExactlyWhen | apps/control_plane/main.py:340-393 | a delegation is made exactly for a known purpose and an end later than now and at most ninety days away; otherwise nothing changes and the error says which; a missing task is created |
| Guarantees.GrantsLapse | apps/execution_gateway/main.py:219-241 | request-step: an execution that is not refused comes within the configured lifetime of its grant, in whole seconds from the issuance, and at most the clock skew before it |
| Guarantees.RecordsFollowClaims | apps/control_plane/main.py:672-711 | request-step: the stored record of every signed grant repeats its claims and expires when the configured lifetime is over; issuer, audience and times of the claims are the deployment's and the issuance's |
| Calls.CallsAreServed | apps/execution_gateway/main.py:418-456 | request-step: every adapter call had its tool's arguments, gave what its tool's own table or store holds under them, and was answered with the projection of that, or as not found, or with an error |
| Calls.ReadsAreTrue | apps/execution_gateway/main.py:424-442 | request-step: a read answers the projection of the record under its argument in its own table, is not found exactly for a scalar that is no key of it, and fails exactly for a list or an object |
| Guarantees.PaymentsOneToOne | apps/control_plane/main.py:713-718 | request-step: payments, grants and approvals correspond one to one |
| Guarantees.ApprovalsAreSingleUse | apps/control_plane/main.py:561-614 | request-step: no two signed grants use the same approval |
| Guarantees.OneCall | apps/execution_gateway/main.py:398-416 | request-step: two adapter calls are never made under one grant |
| Guarantees.OneIssuance | apps/control_plane/main.py:672-698 | request-step: two signatures never share a grant identifier |
| Guarantees.CapsMeaning | apps/control_plane/main.py:628-647 | the policy caps allow exactly amounts in (0, max] and listed currencies |
| Guarantees.TermsMeaning | apps/control_plane/main.py:621-647 | a grant's constraints allow exactly the arguments that agree with the pinned ones path by path, within the caps |
| Guarantees.ArgumentsCarried | apps/execution_gateway/main.py:376-390 | request-step: arguments that reach an adapter equal the issuance arguments, type checked, at every pinned path, and a dot-free key is such a path |
| Guarantees.SubjectCarried | apps/control_plane/main.py:574-580 | request-step: they equal the approval's subject on its scalar dot-free keys |
| Guarantees.CarriedExactlyWhen | apps/control_plane/main.py:621-627 | a scalar argument of a request that satisfies its own terms is under its key in whatever arguments the terms allow, type-checked equal, exactly if the key has no dot |
| Completeness.GrantedCarries | apps/control_plane/main.py:617-671 | so a granted request carries exactly its dot-free scalar arguments under their keys |
| Guarantees.DottedKeysAreNotCarried | apps/control_plane/main.py:621-627 | an instance: arguments that satisfy the terms made from them, and still do without their dotted key |
| Guarantees.AuthorityNarrows | apps/control_plane/main.py:452-557 | request-step: every call's tool is in the agent's capabilities minus denied tools and in the delegation's purpose policy, version, agent, region, task and sponsor are those of manifest and delegation, and the answer is the projection under that policy's fields |
| Baseline.DefaultGuardsPayments | packages/delegation_fabric_core/policy/purpose.py:55-130 | the default policy asks every payment for an approval by someone other than the sponsor, an amount cap and a currency list |
| Provenance.NextKeepsInv | apps/execution_gateway/main.py:151-504 | request-step: every step keeps what is said of signatures, calls and payments |
| Protocol.NextGrows | packages/delegation_fabric_adapters/firestore/store.py:43-250 | request-step: every step only adds: grants leave ISSUED once, approvals are bound once, revocation and terminal states stay, chains and logs get longer, payments stay |
| Protocol.SelectedApproves | packages/delegation_fabric_adapters/firestore/store.py:149-163 | the approval selected is a stored one of this task and suitable for the request |
| AuditRuns.NextAppends | apps/control_plane/main.py:233-238 | request-step: a step changes the audit trail only by appending its own events, each linked to its task's head |
| AuditRuns.EveryChainVerifies | apps/control_plane/main.py:1075-1083 | request-step: every task's chain verifies in every reachable world |
| AuditRuns.TokensAreRecordedOnce | apps/control_plane/main.py:748-782 | request-step: exactly one grant.issued event, in its task's chain, for each token returned, and none for other grants |
| AuditRuns.CompletionsAreRecordedOnce | apps/execution_gateway/main.py:459-483 | request-step: exactly one completion event for each answered call, at most one for a grant, and only for a consumed grant of that task |
| Revocation.RevocationIsImmediate | apps/control_plane/main.py:395-411 | request-step: the revocation request leaves its delegation revoked even if it cannot be recorded, and no other delegation changed |
| Revocation.RevokedIsForever | apps/execution_gateway/main.py:253-280 | request-step: a revoked delegation stays revoked in every run, and no step of it signs, returns or executes anything under the delegation |
| Revocation.NothingWhileStopped | apps/execution_gateway/main.py:253-292 | request-step: nothing is signed, returned or executed while a delegation is revoked or a task not live |
| Revocation.TerminalIsForever | packages/delegation_fabric_core/policy/state_machine.py:27-54 | request-step: a terminal task keeps its state in every run and nothing more happens for it |
| Revocation.QuarantineHolds | apps/control_plane/main.py:476-490 | request-step: a quarantined task stays so, with nothing happening for it, until a release request or a release or cancel event |
| Revocation.HistoryIsAppendOnly | packages/delegation_fabric_adapters/firestore/store.py:238-250 | request-step: a task's chain is a prefix of its chain at any later time |
| Completeness.GrantedExactlyWhen | apps/control_plane/main.py:434-671 | a grant is decided exactly for requests in scope, with one of the task's first two hundred approvals fitting and keeping duties apart where the policy asks for one, and fitting arguments, unless semantic enforcement blocks |
| Completeness.GrantedIsHonoured | apps/execution_gateway/main.py:193-416 | a token just returned is honoured on its own call exactly when region and tool are the gateway's, the tool's arguments are there, the delegation is in force, and fewer whole seconds have passed since the issuance than grants live |
| Evaluation.DecidedExactly | apps/control_plane/main.py:434-671 | a grant is issued exactly if a request fails none of sixteen checks, under the earliest stored approval that fits and keeps duties apart; otherwise the verdict is that of a first failing check |
| Evaluation.RefusedExactly | apps/control_plane/main.py:434-671 | each first failing check has its own code and says whether to quarantine, and that is the verdict |
| Evaluation.TermsInOrder | apps/control_plane/main.py:617-647 | a grant's constraints are one equality for each scalar argument, sorted by key, then the amount caps, then the currency cap |
| Evaluation.SelectionExactly | apps/control_plane/main.py:561-614 | no approval is eligible exactly if none of the task's first two hundred fits, and one is selected exactly if one fits and keeps duties apart |
| Effects.EvaluatedExactly | apps/control_plane/main.py:240-330 | an evaluation leaves exactly the denial, with the task quarantined if it was running and that is asked for, or the grant record, the bound approval and the token, each with the audit event that says so; what cannot be recorded is not answered |
| Effects.RevokedExactly | apps/control_plane/main.py:395-430 | a known delegation is revoked, by whom and when, and nothing else changes; the record names the reason |
| Effects.ReleasedExactly | apps/control_plane/main.py:873-957 | a release answers not found, conflict or invalid transition exactly for an unknown task, one that is not as expected, and one that is not quarantined; otherwise the task resumes one version on and the release is recorded |
| Admission.AdmittedExactly | apps/execution_gateway/main.py:163-390 | an execution is refused under the code of the first of twenty checks it fails, and admitted exactly if it fails none |
| Answers.ExecutedExactly | apps/execution_gateway/main.py:392-504 | an admitted execution is refused as unknown, replayed or expired exactly by the grant's record, or uses up the grant, has its tool's one effect, answers what that yields, and completes the audit trail with an event that names grant, agent, tool and record |
| Answers.DispatchExactly | apps/execution_gateway/main.py:418-454 | what each tool yields: the record of its own table, the payment or the reconciliation it adds or finds, or why there is none |
| Completeness.QuarantiningDenials | apps/control_plane/main.py:499-671 | a denial quarantines exactly for a missing capability, a use outside the purpose and a semantic denial |
| Completeness.ReleasedExactlyWhen | apps/control_plane/main.py:873-927 | a release takes effect exactly on a quarantined task that is as the caller expects: one hop to resuming, one version |
| GrantRace.AtMostOnce | apps/execution_gateway/main.py:398-454 | interleaved: over any interleaving with crashes, and whoever presents signed tokens, returned or not, the adapter runs at most once for a grant, which is consumed, unless an unreturned token leaked and was withdrawn later |
| GrantRace.StatusIsFinal | packages/delegation_fabric_adapters/firestore/store.py:126-145 | interleaved: no grant returns to ISSUED; an expired grant stays expired, and a consumed one changes only if its issuance is withdrawn |
| GrantRace.StatusIsFinalForReturned | packages/delegation_fabric_adapters/firestore/store.py:126-145 | interleaved: while only returned tokens are presented, consumed and expired grants keep their status |
| GrantRace.WithdrawnIsRefused | apps/control_plane/main.py:768-773 | interleaved: once a grant is withdrawn it is expired whatever happens later, and consuming it is refused and changes nothing, whoever presents it; unless consumed before, it is never executed |
| GrantRace.UnreturnedIsInert | apps/control_plane/main.py:748-782 | interleaved: a grant whose token was not returned is consumed or executed only if someone presents the token all the same; if only returned tokens are presented, never |
| GrantRace.LostStaysLost | apps/control_plane/main.py:768-773 | interleaved: an issuance whose record was lost never returns its token later |
| GrantRace.RefusalsLeaveTheStore | apps/execution_gateway/main.py:193-416 | interleaved: refusals before the consume call leave the store unchanged, and a refused consume call at most marks the grant expired |
| ApprovalRace.SingleUseExactlyWhen | apps/control_plane/main.py:713-718 | interleaved: no two grants are bound to one approval exactly if each approval is still unbound in the store when it is bound |
| ApprovalRace.ReturnedTokensShareNoApproval | apps/control_plane/main.py:713-718 | interleaved: under that condition no two returned tokens use one approval |
| ApprovalRace.RacingSelectionsShareAnApproval | apps/control_plane/main.py:561-614 | interleaved: two evaluations whose verdicts issue under one approval before either has bound it both return their tokens, on issued grants bound to it |
| TaskRuns.NoLostUpdates | packages/delegation_fabric_adapters/firestore/store.py:71-88 | interleaved: across worker attempts, quarantines and releases a task's versions strictly increase, one version is one record, each write is a path of the transition table with one version a hop, terminal states are never left, and no event writes twice in a row |
| TaskRuns.EventWritesFollow | apps/worker/main.py:153-244 | interleaved: every write is a worker's target with +2 on a resume and +1 otherwise, a quarantine of a running task or a release of a quarantined one |
| TaskRuns.CheckpointsNeverDangle | apps/worker/main.py:160-244 | interleaved: the latest checkpoint is empty or stored, of the same task, not newer than it, and the final checkpoint of the write that named it |
| TaskRuns.ResumesRestore | apps/worker/main.py:168-181 | interleaved: after a resume agent and session are those of the prior checkpoint if there is one |
| TaskRuns.SameVersionSameRecord | packages/delegation_fabric_adapters/firestore/store.py:81-86 | interleaved: a compare-and-swap that succeeds writes over exactly the record that was read |
| TaskRace.HistoryMeaning | packages/delegation_fabric_core/policy/state_machine.py:27-54 | a history in which every entry follows the one before has increasing versions, hop paths, final terminal states and no event twice in a row |
| TaskLease.EventWritesOnce | packages/delegation_fabric_adapters/firestore/store.py:183-234 | interleaved: if every attempt ends inside its lease, and one that wrote the task completes its receipt there, an event writes a task at most once |
| TaskLease.NotAdmittedAgain | packages/delegation_fabric_adapters/firestore/store.py:196-228 | interleaved: inside that discipline an event that has written is not admitted again |
| Refinement.AttemptIsHandler | apps/worker/main.py:118-272 | a delivery whose store calls are not interleaved with others leaves tasks, checkpoints and receipts as the handler taken as one step |
| Refinement.IssuanceIsHandler | apps/control_plane/main.py:672-782 | an issuance whose store calls are not interleaved with others leaves the store as the handler taken as one step, and returns its token exactly if the handler does |
| Refinement.ExecutionIsHandler | apps/execution_gateway/main.py:193-416 | an execution whose store calls are not interleaved with others leaves the grants as the handler taken as one step, and consumes exactly if the handler reaches its adapter |
| AuditChain.HeadFixesHistory | packages/delegation_fabric_core/audit/chain.py:51-112 | two verifying chains with one head hash are equal event by event, whatever their lengths |
| AuditChain.RewritingIsDetected | packages/delegation_fabric_core/audit/chain.py:79-112 | any other history stops verifying or shows another head |
| AuditChain.ValidMeansEveryPrefixBuilt | packages/delegation_fabric_core/audit/chain.py:61-112 | a chain verifies exactly if every prefix was built by finalizing and appending |
| AuditChain.VerifyAuditChain | packages/delegation_fabric_core/audit/chain.py:79-112 | the loop decides validity and reports the least bad index and the head |
| AuditChain.AppendValid | packages/delegation_fabric_core/audit/chain.py:61-66 | appending with the current head keeps a chain valid |
| AuditChain.AppendWithHead | apps/execution_gateway/main.py:459-483 | an event linked to a head read earlier keeps the chain valid exactly if that head is still the head |
| AuditChain.RacingAppendsBreakTheChain | apps/control_plane/main.py:233-238 | two appends that read the same head break the chain |
| AuditChain.HashFacts | packages/delegation_fabric_core/audit/chain.py:51-58 | no event hash is the genesis hash |
| FirestoreAudit.NameOrderIsAppendOrder | packages/delegation_fabric_adapters/firestore/firestore_store.py:391-433 | reading n documents in name order is append order exactly for n up to 10^8 |
| FirestoreAudit.NamesAreUnique | packages/delegation_fabric_adapters/firestore/firestore_store.py:396-409 | document names of different tasks or numbers differ |
| FirestoreAudit.AppendRefines | packages/delegation_fabric_adapters/firestore/firestore_store.py:398-409 | one append transaction keeps documents and counters equal to the in-memory lists |
| FirestoreAudit.ReadIsTheList | packages/delegation_fabric_adapters/firestore/firestore_store.py:420-433 | up to 10^8 events a task's documents in name order are the in-memory list |
| FirestoreAudit.FirestoreAuditLog.AppendAuditEvent | packages/delegation_fabric_adapters/firestore/firestore_store.py:391-418 | the transaction refines appending to the in-memory list |
| FirestoreAudit.FirestoreAuditLog.GetAuditEvents | packages/delegation_fabric_adapters/firestore/firestore_store.py:420-433 | the query returns the in-memory list, cut to the limit |
| Constraints.LookupMeaning | packages/delegation_fabric_core/constraints/engine.py:25-61 | the lookup finds a value exactly if the path names it through object members and list indices, at most five parts deep |
| Constraints.GetNestedValue | packages/delegation_fabric_core/constraints/engine.py:25-61 | the loop computes that lookup |
| Constraints.EvaluateMeaning | packages/delegation_fabric_core/constraints/engine.py:64-314 | a list is allowed exactly when every constraint holds; otherwise the outcome is that of the first that does not |
| Constraints.OutcomeExactly | packages/delegation_fabric_core/constraints/engine.py:64-314 | the first constraint that is not met decides: path unknown exactly if nothing is at its path and it is not exists, type mismatch exactly if what is there has the wrong type, constraint failed otherwise, an exception exactly if hashing raises |
| Constraints.AllowedExactly | packages/delegation_fabric_core/constraints/engine.py:64-314 | a list is allowed exactly if a value of the right type at every constraint's path satisfies it and none raises; arguments that are no object are refused |
| Constraints.OperatorsMeaning | packages/delegation_fabric_core/constraints/engine.py:97-312 | the operand types and the meaning of each of the twelve operators, numbers compared exactly across integers and fractions |
| Constraints.RaisesExactly | packages/delegation_fabric_core/constraints/engine.py:271-284 | subset_of raises exactly on an unhashable allow-list, or an unhashable item after items that are all allowed |
| Constraints.EvaluateConcat | packages/delegation_fabric_core/constraints/engine.py:64-314 | evaluating a concatenation is evaluating the parts in order |
| Constraints.EvaluateNarrows | packages/delegation_fabric_core/constraints/engine.py:64-314 | added constraints only narrow |
| Constraints.SameLookupsSameOutcome | packages/delegation_fabric_core/constraints/engine.py:64-314 | the outcome depends on the arguments only through what the paths look up |
| Constraints.SubsetCheck | packages/delegation_fabric_core/constraints/engine.py:271-284 | subset_of raises exactly on an unhashable allow-list item or on the first unhashable item met, and otherwise decides inclusion |
| Constraints.CheckConstraint | packages/delegation_fabric_core/constraints/engine.py:76-312 | one turn of the loop gives the constraint's own outcome |
| Constraints.EvaluateConstraints | packages/delegation_fabric_core/constraints/engine.py:64-314 | the loop allows exactly when all constraints hold and otherwise reports the first that does not |
| Json.PyEqTransitive | packages/delegation_fabric_core/constraints/engine.py:99-119 | equality of JSON values is transitive, across the ways of writing a number |
| Json.PyEqIsEquality | packages/delegation_fabric_core/constraints/engine.py:99-119 | on values without numbers it is equality |
| Projection.Survival | packages/delegation_fabric_core/policy/projection.py:19-79 | a key path of the payload survives exactly when it is a tree node or extends a tree leaf, with the values under leaves unchanged |
| Projection.ShapeAtInnerNode | packages/delegation_fabric_core/policy/projection.py:34-79 | at inner nodes objects lose only keys, lists keep length and scalar items, and other scalars become None |
| Projection.ValuesOfProjection | packages/delegation_fabric_core/policy/projection.py:34-79 | the values at every path of the projection |
| Projection.NodesPrefixClosed | packages/delegation_fabric_core/policy/projection.py:19-31 | the tree's key paths are closed under prefixes |
| Projection.OrderAndRepetitionDoNotMatter | packages/delegation_fabric_core/policy/projection.py:19-31 | allow-lists with the same members give the same projection and count |
| Projection.Idempotent | packages/delegation_fabric_core/policy/projection.py:82-103 | projecting twice equals projecting once |
| Projection.Commutes | packages/delegation_fabric_core/policy/projection.py:82-103 | projections under two allow-lists commute |
| Projection.NothingDropped | packages/delegation_fabric_core/policy/projection.py:82-103 | a count of zero means the payload is returned unchanged |
| Projection.CutsCounted | packages/delegation_fabric_core/policy/projection.py:34-79 | the dropped count is the number of places where something was cut: a member whose key leaves the tree, or a scalar where the tree goes on |
| Projection.BuildProjectionTree | packages/delegation_fabric_core/policy/projection.py:19-31 | the nested dictionaries grown in place hold exactly the prefixes of the non-empty allowed paths |
| Projection.AddPath | packages/delegation_fabric_core/policy/projection.py:25-30 | walking one path through the cursor adds exactly its prefixes and keeps all dictionaries apart |
| Projection.Descend | packages/delegation_fabric_core/policy/projection.py:26-30 | one move of the cursor adds the child if it is missing |
| Projection.ProjectRecursive | packages/delegation_fabric_core/policy/projection.py:34-79 | the recursion over payload and dictionaries computes the projection and its count |
| Projection.ProjectEntries | packages/delegation_fabric_core/policy/projection.py:44-60 | the loop over an object's members |
| Projection.ProjectItems | packages/delegation_fabric_core/policy/projection.py:61-74 | the loop over a list's items |
| Projection.ProjectFieldsOf | packages/delegation_fabric_core/policy/projection.py:82-103 | project_fields, with its scalar, empty and general cases |
| Base64.RoundTrip | packages/delegation_fabric_adapters/kms/signer.py:29-39 | decoding inverts unpadded base64url encoding for every byte string |
| Base64.EncodeIsSymbols | packages/delegation_fabric_adapters/kms/signer.py:29-31 | stripping the padding leaves exactly the symbols of the data |
| Base64.EncodedExactly | packages/delegation_fabric_adapters/kms/signer.py:29-31 | the text is the bit string of the data, six bits to a symbol, highest bits first, in as many symbols as the bits need |
| Base64.AlphabetIs | packages/delegation_fabric_adapters/kms/signer.py:29-31 | capitals, small letters, digits, minus, underscore |
| Signer.PackedExactly | packages/delegation_fabric_adapters/kms/signer.py:42-45 | the packed signature is R and then S, thirty-two bytes each, most significant byte first, or none if one does not fit |
| Signer.AcceptedExactly | packages/delegation_fabric_adapters/kms/signer.py:151-207 | a token is accepted exactly if it is three segments that decode, with a header of this algorithm and type, nothing critical and a trusted key, a sixty-four byte signature of the first two under that key, and valid claims |
| Signer.RaisedExactly | packages/delegation_fabric_adapters/kms/signer.py:151-207 | parsing raises exactly for a header that cannot be examined, or a genuine signature on claims that are not valid |
| Signer.RawRoundTrip | packages/delegation_fabric_adapters/kms/signer.py:42-54 | 32-byte big-endian R||S unpacks to the packed pair for all r, s below 2^256 |
| Signer.Power256Is | packages/delegation_fabric_adapters/kms/signer.py:42-45 | the bound of the packing is 2^256 |
| Signer.RawRoundTripBack | packages/delegation_fabric_adapters/kms/signer.py:42-54 | every 64 bytes unpack to a pair that packs back |
| Signer.SignedSegments | packages/delegation_fabric_adapters/kms/signer.py:74-99 | a signed token is exactly three segments that decode to header, claims and signature |
| Signer.SignedParses | packages/delegation_fabric_adapters/kms/signer.py:151-207 | a signed grant parses back to the grant that was signed |
| Signer.AcceptedWasSigned | packages/delegation_fabric_adapters/kms/signer.py:151-207 | an accepted token that is no forgery carries the unchanged claims of a signed grant |
| Signer.JWSGrantVerifier.ParseAndVerify | packages/delegation_fabric_adapters/kms/signer.py:151-207 | an unknown key id is resolved and registered, then the token is parsed and verified under the known keys |
| KeyCache.KeysAreFresh | packages/delegation_fabric_adapters/kms/signer.py:102-130 | every key handed out was resolved in the same call or less than ttl earlier; resolver calls for one key are at least ttl apart after a success and 30 seconds after a failure |
| KeyCache.AskedExactlyWhen | packages/delegation_fabric_adapters/kms/signer.py:115-130 | the resolver is asked exactly if no success for the key is fresh and no failure is less than thirty seconds old; otherwise the fresh key is given, or a failure if there is none |
| KeyCache.CachedKeyResolver.Call | packages/delegation_fabric_adapters/kms/signer.py:115-130 | one call updates the two caches as the trace says |
| Store.MemoryStore.MutateTaskAtomic | packages/delegation_fabric_adapters/firestore/store.py:71-88 | compare-and-swap on the version: the new store, or the reason for none |
| Store.MemoryStore.ConsumeGrantAtomic | packages/delegation_fabric_adapters/firestore/store.py:126-145 | consumption succeeds exactly on an issued, unexpired grant, which it marks consumed |
| Store.MemoryStore.ReserveEventReceipt | packages/delegation_fabric_adapters/firestore/store.py:183-228 | admits first deliveries and those whose lease ran out before completion |
| Store.MemoryStore.MarkEventComplete | packages/delegation_fabric_adapters/firestore/store.py:230-234 | completes a known receipt |
| Store.MemoryStore.ListApprovals | packages/delegation_fabric_adapters/firestore/store.py:157-163 | the task's first two hundred approvals in insertion order |
| Store.MemoryStore.PutApproval | packages/delegation_fabric_adapters/firestore/store.py:149-151 | stores the approval, last in order if it is new |
| Store.MemoryStore.AppendAuditEvent | packages/delegation_fabric_adapters/firestore/store.py:238-242 | appends to the task's list |
| Store.MemoryStore.AppendLinked | apps/control_plane/main.py:233-238 | reads the head, finalizes and appends |
| Store.MemoryStore.PutDelegation | packages/delegation_fabric_adapters/firestore/store.py:43-45 | stores a delegation under its identifier |
| Store.MemoryStore.GetDelegation | packages/delegation_fabric_adapters/firestore/store.py:47-50 | the stored delegation or none |
| Store.MemoryStore.PutTask | packages/delegation_fabric_adapters/firestore/store.py:60-62 | stores a task under its identifier |
| Store.MemoryStore.GetTask | packages/delegation_fabric_adapters/firestore/store.py:64-69 | the stored task or none |
| Store.MemoryStore.PutCheckpoint | packages/delegation_fabric_adapters/firestore/store.py:90-94 | stores a checkpoint under its identifier |
| Store.MemoryStore.GetCheckpoint | packages/delegation_fabric_adapters/firestore/store.py:96-98 | the stored checkpoint or none |
| Store.MemoryStore.PutGrant | packages/delegation_fabric_adapters/firestore/store.py:110-112 | stores a grant under its identifier |
| Store.MemoryStore.GetAuditEvents | packages/delegation_fabric_adapters/firestore/store.py:244-250 | the task's list, empty if there is none, cut to the limit |
| Store.ListedExactly | packages/delegation_fabric_adapters/firestore/store.py:157-163 | an approval is listed for a task, at a place, exactly if it is among the first two hundred of the task in storing order, at that place |
| Store.AdmittedExactlyWhen | packages/delegation_fabric_adapters/firestore/store.py:183-228 | an event is admitted exactly on its first delivery, or when it is not complete and was last admitted at least the lease ago; only its receipt changes |
| Store.ListedAreStored | packages/delegation_fabric_adapters/firestore/store.py:157-163 | listed approvals are stored ones of the task |
| Erp.PaymentsMeaning | packages/delegation_fabric_adapters/postgres/erp.py:85-98 | a grant's first instruction adds one payment that names the grant, the batch and the identifier asked for, and later ones return it |
| Erp.ReconciliationsMeaning | packages/delegation_fabric_adapters/postgres/erp.py:68-83 | a reconciliation is written once under its identifier, each field from its own argument; what cannot be written changes nothing |
| Erp.FileERPBackend.InstructPayment | packages/delegation_fabric_adapters/postgres/erp.py:85-98 | one payment per grant; a repeat returns the first record and changes nothing |
| Erp.FileERPBackend.WriteReconciliation | packages/delegation_fabric_adapters/postgres/erp.py:68-83 | one reconciliation per identifier: a repeat returns the first record, and an exception changes nothing |
| Erp.FileERPBackend.Read | packages/delegation_fabric_adapters/postgres/erp.py:53-66 | a record, nothing, or an exception on an unhashable key |
| ControlPlane.SelectMeaning | apps/control_plane/main.py:561-614 | the selected approval is the first suitable one; none eligible and duties violated are told apart |
| ControlPlane.SelectConcat | apps/control_plane/main.py:563-605 | selecting from a concatenation is selecting from the parts in order |
| ControlPlane.Server.SelectApproval | apps/control_plane/main.py:563-605 | the candidate filter and the duties loop compute that selection |
| ControlPlane.Server.CheckDuties | apps/control_plane/main.py:592-603 | the rules loop, failing closed on unknown rules |
| ControlPlane.Server.BuildPins | apps/control_plane/main.py:621-627 | sorted scalar arguments become eq constraints; an illegal path raises |
| ControlPlane.Server.BuildTerms | apps/control_plane/main.py:617-647 | pins, then amount and currency caps |
| ControlPlane.Server.CheckScope | apps/control_plane/main.py:452-557 | phases A to F2 in the code's order, with their codes |
| ControlPlane.Server.EvaluateGrant | apps/control_plane/main.py:434-782 | the whole evaluation: decision, denial and quarantine, issuance |
| ControlPlane.Server.EvaluateTerms | apps/control_plane/main.py:617-671 | phases H and I |
| ControlPlane.Server.MintGrant | apps/control_plane/main.py:672-782 | stores the grant, binds the approval, records; expires a grant that cannot be recorded |
| ControlPlane.Server.DenyRequest | apps/control_plane/main.py:240-330 | records the denial and quarantines where asked |
| ControlPlane.Server.QuarantineIfRunning | apps/control_plane/main.py:267-306 | moves a running task to quarantine by compare-and-swap and records it |
| ControlPlane.Server.CreateDelegation | apps/control_plane/main.py:340-393 | stores the delegation and creates the task if it is missing |
| ControlPlane.Server.RevokeDelegation | apps/control_plane/main.py:395-430 | marks the delegation revoked before it records the revocation |
| ControlPlane.Server.CreateApproval | apps/control_plane/main.py:805-850 | stores the decision that was asked for as an unbound approval |
| ControlPlane.Server.Release | apps/control_plane/main.py:873-957 | checks version, state and transition, then writes by compare-and-swap and records |
| Gateway.Server.Verify | apps/execution_gateway/main.py:163-390 | steps 1 to 9 and 12 in the code's order, with their codes |
| Gateway.Server.VerifyClaims | apps/execution_gateway/main.py:201-250 | issuer, audience, time bounds and region |
| Gateway.Server.VerifyCall | apps/execution_gateway/main.py:294-390 | agent, version, tool, required arguments and constraints |
| Gateway.Server.CallAdapter | apps/execution_gateway/main.py:418-454 | dispatch to the five adapters |
| Gateway.Server.Execute | apps/execution_gateway/main.py:151-504 | verification, consumption, adapter, projection and audit |
| Gateway.Server.Perform | apps/execution_gateway/main.py:418-483 | adapter, projection and audit for a consumed grant |
| Gateway.RefusalsChangeNothing | apps/execution_gateway/main.py:193-416 | request-step: a refusal leaves store and ERP as they were, but for the lapse of the grant |
| Worker.DeliveredExactly | apps/worker/main.py:118-272 | the whole delivery: a duplicate exactly if complete or admitted less than a minute ago; otherwise task, checkpoints, receipt and trail as the state and the kind of event say, or an error that changes nothing but the receipt |
| StateMachine.TargetExactly | apps/worker/main.py:55-77 | state by state and event by event: approval, settlement, start and release let exactly the waiting task run, rejection and cancellation end any that has not ended, a failed settlement fails one that runs or resumes |
| StateMachine.OneHopExactly | packages/delegation_fabric_core/policy/state_machine.py:27-54 | some event leads from one state to another exactly along these edges |
| Effects.HopsAreRecorded | apps/worker/main.py:246-262 | a processed event moved its task as it says, and the end of the task's chain names the event and both states |
| Worker.PlanMeaning | apps/worker/main.py:146-244 | a plan exists exactly for a valid transition; version +2 and the prior checkpoint's agent and session on a resume, +1 otherwise; its last checkpoint carries the version it writes |
| Worker.Server.HandleEvent | apps/worker/main.py:118-272 | reserve, transition, checkpoints, compare-and-swap, audit, complete |
| Worker.Server.Process | apps/worker/main.py:142-272 | everything after the reservation |
| Worker.Server.PlanCheckpoints | apps/worker/main.py:146-221 | the worker's copy of the task and the checkpoints it stores |
| Worker.Server.ResumeTask | apps/worker/main.py:164-199 | runtime references, the resume checkpoint and the second hop |
| StateMachine.NoSecondMove | apps/worker/main.py:55-77 | after an event has moved a task the same event is refused |
| StateMachine.WorkerHops | apps/worker/main.py:158-199 | every worker target is one hop of the table away, or two through resuming |
| Text.Sort | apps/control_plane/main.py:621-627 | sorting the argument keys |
| FirestoreAudit.PyIntExactly | packages/delegation_fabric_core/constraints/engine.py:49-56 | a list index in a path is read from its decimal text |
| Text.SplitAtDot | packages/delegation_fabric_core/constraints/engine.py:38 | splitting inverts joining with a dot |

## Left out

- Routing, header parsing, request validation by pydantic, HTTP status codes, logging, metrics and tracing: requests
  arrive decoded, the clock and fresh identifiers are arguments, and an absent user is already replaced by its default.
- Elliptic-curve arithmetic, SHA-256, DER and JSON text are functions with the stated assumptions.
- Cloud KMS, Pub/Sub, Cloud Storage, Model Armor, PostgreSQL and the built-in demonstration ERP.
- Of the Firestore store only the audit log is modelled; its other operations repeat those of the in-memory store, and
  its transactions are taken as atomic.
- Content screening and semantic heuristics: the verdict is an arbitrary boolean that may block, the evidence an argument.
- Regular-expression search is a function of pattern and text.
- Floats are exact fractions: no NaN, infinities or rounding. List indices in paths are read from ASCII digits only, and
  only ASCII white space is stripped.
- Objects are maps, so the order of their keys is not modelled; approvals keep the order they were stored in.
- `finalize_audit_event` sets two fields of the event it is given, and `put_grant` and `put_task` keep the caller's object:
  events and records are values here, so aliasing between a handler's record and the stored one is not captured. In
  memory a grant that cannot be recorded is therefore expired a moment earlier than in the model.
- Fields of records that no handler reads.
- Audit appends in the interleaved task system: they touch no task. Chain validity is a request-step theorem, because
  reading the head and appending are two store calls; `AuditChain.AppendWithHead` says exactly when an append is safe.
- AuditRuns.TokensAreRecordedOnce: does not cover an audit append that raises after its event was written; the event is
  then in the chain though no token is returned.
- Store.MemoryStore.MarkEventComplete: does not set the completion time, which nothing reads.
- ControlPlane.Server.CreateApproval: does not model the subject's digest, which nothing reads, nor the published event;
  deliveries are arbitrary envelopes.
- Guarantees.ApprovalsAreSingleUse: is a request-step theorem, because selecting an approval and binding it are separate
  store calls; `ApprovalRace` says exactly when it holds for interleaved calls.
- Negative limits of listings.
- A `kid` that is not a string is taken as unknown; the key resolver inside `Signer` is a fixed function, its caching is
  modelled in `KeyCache`, where the lifetime is a whole number of seconds.
- Listing and inspection endpoints, the console, agent workflows, the registry, seed data and deployment: no protocol state.
- Tests and the demonstration write tasks directly; here that is part of an arbitrary start.
