# Synesis verification

A Dafny model of how Synesis moves value: what it encodes, what it hashes, what it stores, and what it sends.
Everything is stated for all inputs and, for the protocols, for all runs: any number of submitters and workers, any
interleaving, a crash between any two steps.

`dafny verify dfyconfig.toml` checks the whole project.

## The model

**Execution gateway.** `GatewayStore` holds the execution, receipt and request tables with their unique, check and
foreign-key constraints, and the repository operations on them as functions; a transaction that would break a
constraint aborts. `ExecutionStore` is the same store as an object with mutable tables and rollback, proved equal to
those functions. `Gateway` is `submit` as interleaved step machines over the store and a log of what leaves the
process. `GatewayService` is `submit` as it is written, awaiting one call after another, proved to be a run of that
machine that fails for the reason its last step gives. `GatewayRows` is the history of an execution row and
`GatewayEvidence` the evidence that the recorded rows rest on. `GatewayChecks` are the checks before the first outside
call and the policy and call built from them; `GatewayAdmission` and `AdmittedCalls` say what they let through.

**Durable coordinator.** `IntentStates` is the lifecycle graph and `transitionIntent`. `CoordinatorStore` holds
intents, audit events, outbox and inbox; `CoordinatorDatabase` is the mutable store. `Coordinator` is one transition
system of writers with stale reads, publishers that stop between claim, publish and mark, lease expiry, reconcilers
and redelivered jobs. `CoordinatorService` has the loops of publisher and reconciler and the locked processor, each
proved to be a run of the system. `MessageKeys` and `Backoff` are the deduplication keys and the retry delay.
`CoordinatorLaws` says when a message gets its own job and an event its message, `MessageLaws` what messages and jobs
say, `Leases` how one lease begins and ends.

**Codec.** `Calldata` is the calldata encoder, decoder and allowlist check, `Manifest` the allowlist with its
imperative validation, `AbiEncoding` an independent encoder written from the Solidity Contract ABI Specification,
`Planner` the Python planner whose calls the validator must accept, `MarketplaceEvents` the reader of request ids.
`CalldataProofs`, `CalldataLaws`, `ManifestLaws` and `RoutingLaws` hold the laws.

**Canonical forms.** `Json` prints and reads JSON trees, `KeyOrders`, `CanonicalJson` and `KeyTies` sort them,
`HostValues` says which values of the host share a text, `Decimals` canonicalizes decimals. On them rest `SafeExecution`
(payloads and idempotency keys, with `SafeExecutionLaws` and `PolicyLaws`),
`SafeExecutionClient` (the request loop), `Receipts`, `ReceiptLaws` and `ReceiptDecisions` (evidence and the
reconciliation decision), `ProofBundles` and `Quorum`.

Stores and clients are classes where the source updates state; the codec, the canonical forms, the decisions and the
lifecycle are functions where the source computes. Digests are one unknown function; `Hashing.CollisionFree` is the
only assumption about it: equal digests have equal inputs and digests are hexadecimal. Keccak selectors and event
topics are given constants. Answers of other services, clocks, random numbers and new ids are parameters of the step
that receives them. Times are integers in milliseconds.

## What the proofs found

- A receipt decision other than UNCONFIRMED and TIMED_OUT is not fully stable: when the service had not named its
  execution and later names another one, a verified success becomes EVIDENCE_MISMATCH. `ReceiptDecisions.StableIff`
  gives the exact condition, `ReceiptDecisions.SuccessWithdrawn` the responses.
- A constraint of kind USDC_APPROVE_AAVE names a spender that the validator never compares
  (packages/olas-contracts/src/calldata.ts:278-288). The first version of the manifest has one: under it any address
  can be approved (`RoutingLaws.V1AcceptsAnySpender`). The active manifest uses the bounded-spenders kind, which is
  enforced (`CalldataLaws.SpendersLimitedIff`).
- The domain's `canonicalJson` orders keys by the locale, which may tie on different keys. A value has one text exactly
  when no object in it holds tying keys (`KeyTies.OneTextIff`). The text never gives two JSON values one text, so proof
  roots bind their content either way.
- The key of an ingested event does not separate source and event, so two events can share a key
  (`MessageKeys.EventKeysCollideIff`). The second of them is accepted and never gets its message
  (`CoordinatorLaws.EventMessageIff`, `CoordinatorLaws.CollidingEventLost`).
- Job ids replace colons by dashes, so two messages can share one job, and then one of them is marked published
  although only the other's job was queued (`CoordinatorLaws.SharedJobReachable`). A message is sure of its own job
  exactly when its id holds neither character (`CoordinatorLaws.OwnJobIff`), or when no other message of the outbox
  shares its job id (`CoordinatorLaws.PublishedJobIsOwn`).
- SUCCEEDED does not imply that an intent was evaluated. It does exactly when the procurement was not left for
  UNCONFIRMED (`IntentStates.SuccessEvaluatedIff`, `Coordinator.AuditTrail`).

## Model

| member | source | states |
|---|---|---|
| Manifest.ValidateContent | packages/olas-contracts/src/manifest.ts:164-270 | the imperative validation accepts exactly the contents that satisfy `ValidContent`: well-formed unique contracts, and calls that are well formed with one target and selector each |
| Manifest.ValidateContracts | packages/olas-contracts/src/manifest.ts:178-219 | the contract loop reports no fault exactly when every contract is well formed and ids and addresses are unique, and returns the set of ids it saw |
| Manifest.ValidateCalls | packages/olas-contracts/src/manifest.ts:220-269 | the call loop reports no fault exactly when every call is well formed and no two calls share contract and selector |
| Manifest.ValidateCall | packages/olas-contracts/src/manifest.ts:222-263 | one call passes exactly when its contract is known, its selector matches its signature, one ABI entry has that signature and its spender bounds are sound; otherwise the first of these that fails is reported |
| Manifest.ValidateSpenders | packages/olas-contracts/src/manifest.ts:242-263 | the spender loop accepts exactly non-empty lists of well-formed, positive, pairwise different bounds |
| Manifest.CallKeyInjective | packages/olas-contracts/src/manifest.ts:264-268 | the joined text `contract:selector` determines both parts, so the set of keys detects every ambiguous pair |
| ManifestLaws.TargetLookup | packages/olas-contracts/src/calldata.ts:169-179 | in a valid manifest a target that names a contract finds that contract and no other |
| ManifestLaws.SelectorLookup | packages/olas-contracts/src/calldata.ts:181-193 | in a valid manifest a selector of a contract finds its one rule |
| ManifestLaws.ActiveDistinct | packages/olas-contracts/src/manifest.ts:468-508 | the contracts of the active manifest are pairwise different in id and address |
| ManifestLaws.ValidPins | packages/olas-contracts/src/manifest.ts:178-263 | in a valid manifest every contract pins its code, behind a proxy also the implementation, and every bounded spender has a well-formed address and a positive bound |
| ManifestLaws.HashIff | packages/olas-contracts/src/manifest.ts:162-163 | a code hash is the digest's name and 32 bytes in lower-case hexadecimal digits |
| ManifestLaws.ManifestsAreValid | packages/olas-contracts/src/manifest.ts:272-508 | the active manifest and the version before it pass the validation, given the Keccak selectors of the three signatures |
| CalldataProofs.EncodersFollowAbi | packages/olas-contracts/src/calldata.ts:342-370 | every hand-written encoding equals the selector followed by an independently written encoder of the Solidity Contract ABI Specification, section "Formal Specification of the Encoding" |
| CalldataProofs.BytesTailIsTail | packages/olas-contracts/src/calldata.ts:102-109 | the tail of a bytes value is the specification's tail, and is refused exactly when the length does not fit a word |
| CalldataLaws.DecodeTail | packages/olas-contracts/src/calldata.ts:111-134 | a tail placed at an aligned offset behind the head decodes to the bytes it encodes |
| CalldataLaws.ApproveRoundTrip | packages/olas-contracts/src/calldata.ts:271-303 | the payload of an in-bounds approval decodes to that approval in normal form |
| CalldataLaws.ApproveSound | packages/olas-contracts/src/calldata.ts:271-303 | a decoded approval is well formed, in normal form, in bounds, and encodes back to the input |
| CalldataLaws.SupplyRoundTrip | packages/olas-contracts/src/calldata.ts:305-339 | the payload of an in-bounds supply decodes to that supply in normal form |
| CalldataLaws.SupplySound | packages/olas-contracts/src/calldata.ts:305-339 | a decoded supply is well formed, in normal form, in bounds, and encodes back to the input |
| CalldataLaws.RequestRoundTrip | packages/olas-contracts/src/calldata.ts:195-248 | the payload of an in-bounds marketplace request, with request data of any permitted length, decodes to that request in normal form |
| CalldataLaws.RequestSound | packages/olas-contracts/src/calldata.ts:195-248 | a decoded request is well formed, in normal form, in bounds, and its canonical encoding is the payload |
| CalldataLaws.RouteFacts | packages/olas-contracts/src/calldata.ts:250-268 | an accepted route comes from one contract with the target's address and one of its calls with the data's selector, on the manifest's chain and within the native-value cap |
| CalldataLaws.AcceptedIsCanonical | packages/olas-contracts/src/calldata.ts:250-340 | everything acceptance says: the decoded call is well formed, normal and in bounds of the routed rule, and the data is that rule's selector followed by the call's canonical arguments, with exact offsets, zero padding and nothing behind |
| CalldataLaws.AcceptedInjective | packages/olas-contracts/src/calldata.ts:250-340 | accepted inputs with one decoding carry the same calldata up to hex case |
| CalldataLaws.NormalizedEncoding | packages/olas-contracts/src/calldata.ts:342-370 | lower-casing hex and canonicalizing amounts does not change a call's encoding |
| RoutingLaws.EncodedIsAccepted | packages/olas-contracts/src/calldata.ts:250-370 | round trip under a valid manifest: calldata carrying the encoding of a call within the bounds of the rule that fits chain, target, selector and native value validates to that call, with lower-case hex and canonical decimal amounts |
| RoutingLaws.RouteIff | packages/olas-contracts/src/calldata.ts:250-268 | under a valid manifest the validator picks a rule exactly when chain, shape, target, selector and native value fit that rule |
| RoutingLaws.AcceptanceIff | packages/olas-contracts/src/calldata.ts:250-370 | under a valid manifest an input validates to a call if and only if a rule of the manifest fits the input and bounds the call and the data is the call's encoding, all of which a caller can check beforehand |
| RoutingLaws.AcceptanceOnBaseIff | packages/olas-contracts/src/calldata.ts:250-370 | under the active manifest, for all three kinds of call: acceptance exactly for chain 8453, the kind's contract, no native value, the kind's bounds and the call's full encoding |
| RoutingLaws.BaseLimits | packages/olas-contracts/src/manifest.ts:390-508 | the bounds of the active manifest in numbers, both directions: requests up to one USDC, 8,192 bytes and one to five minutes; approvals of one USDC to the tracker or 10,000 USDC to the pool; supplies up to 10,000 USDC to the expected wallet without referral |
| CalldataLaws.EncodedShape | packages/olas-contracts/src/calldata.ts:342-370 | every encoding is lower-case prefixed hex of even length, its own lower-case form |
| CalldataLaws.SpendersLimitedIff | packages/olas-contracts/src/calldata.ts:276-288 | approvals are limited to the spenders a constraint names exactly when the constraint is not the single-spender kind, whose spender the code never compares |
| RoutingLaws.V1AcceptsAnySpender | packages/olas-contracts/src/manifest.ts:425-437 | under the first version of the manifest the encoded approval of any address up to the lending pool's cap is accepted |
| RoutingLaws.V1AcceptsUnnamedSpender | packages/olas-contracts/src/manifest.ts:425-437 | a concrete address that the rule does not name, and its accepted approval |
| Planner.PlannedApprovalAccepted | services/olas-adapter/src/synesis_olas/service.py:442-458 | the approval of every returned plan validates under the active manifest and decodes to the payment tracker and the quoted rate |
| Planner.PlannedRequestAccepted | services/olas-adapter/src/synesis_olas/service.py:459-480 | the marketplace call of every returned plan validates under the active manifest with its Mech allowed and decodes to the plan's rate, payment type, Mech, timeout and request data |
| Planner.PlannedIff | services/olas-adapter/src/synesis_olas/service.py:358-480 | a plan is made exactly for a prompt and schema within their limits, a first Mech at the address that offers the tool, a USDC price within the limit and a 32-byte hash with its CID |
| Planner.PlannedCalls | services/olas-adapter/src/synesis_olas/service.py:442-480 | both calls of a plan come from the payer in lower case, carry no native value, and go to the token and the marketplace at the discovered price |
| RoutingLaws.AcceptedOnBase | packages/olas-contracts/src/calldata.ts:250-340 | under the active manifest accepted calldata is in full, selector included, the canonical encoding of its decoding |
| RoutingLaws.SupplyNeedsWallet | packages/olas-contracts/src/calldata.ts:321-329 | no manifest lets a supply through without an expected wallet |
| Json.ReadValue | packages/keeperhub-client/src/safe-execution.ts:219 | printed JSON is uniquely readable: a value text and what follows it determine the value and the rest, for every nesting and every escape of section 7 of RFC 8259 |
| Json.StringifyInjective | packages/keeperhub-client/src/safe-execution.ts:219 | different trees print different texts |
| Json.EscapeMeans | packages/keeperhub-client/src/safe-execution.ts:219 | every character is printed as a sequence that stands for it by section 7 of RFC 8259, and as short as there is one |
| KeyOrders.CodeUnitIsTotalOrder | packages/keeperhub-client/src/safe-execution.ts:210-215 | sorting keys by UTF-16 code units is a strict total order on texts, surrogate pairs included |
| KeyOrders.CodeUnitIff | packages/keeperhub-client/src/safe-execution.ts:210-215 | that order is the lexicographic order of the UTF-16 encodings of section 2.1 of RFC 2781 |
| KeyOrders.EnumeratedStrict | packages/domain/src/hashing.ts:7-12 | putting index keys first in ascending order keeps a strict order strict |
| KeyOrders.EnumeratedOrder | packages/domain/src/hashing.ts:7-12 | keys that are numerals below 2^32 - 1 come first in ascending order, the others after them in the order given |
| KeyOrders.EnumeratedTotal | packages/domain/src/hashing.ts:7-12 | enumeration order is total exactly when the comparator never ties on two different keys that are not indices |
| CanonicalJson.SortFieldsMeaning | packages/keeperhub-client/src/safe-execution.ts:210-215 | sorting the members of an object keeps the map they denote |
| CanonicalJson.SortedMeaning | packages/keeperhub-client/src/safe-execution.ts:195-220 | sorting at every depth keeps what a tree means and that it is a JSON value |
| CanonicalJson.SortedIsCanonical | packages/keeperhub-client/src/safe-execution.ts:195-220 | where no keys tie, the sorted tree has strictly ordered keys in every object |
| CanonicalJson.CanonicalUnique | packages/keeperhub-client/src/safe-execution.ts:195-220 | a strictly sorted tree is the only one with its meaning |
| CanonicalJson.NormalForm | packages/keeperhub-client/src/safe-execution.ts:195-220 | a JSON value in which no keys tie has the canonical text of another exactly when the two are equal up to key order at every depth |
| CanonicalJson.SameTextSameMeaning | packages/domain/src/hashing.ts:1-19 | whatever the comparator, one canonical text has one meaning |
| CanonicalJson.TiedKeys | packages/domain/src/hashing.ts:9-11 | two keys on which the comparator ties give one meaning two texts (concrete objects) |
| CanonicalJson.NormalFormIff | packages/domain/src/hashing.ts:1-19 | the canonical text is a normal form exactly when the key order never ties |
| KeyTies.OneTextIff | packages/domain/src/hashing.ts:1-19 | a value has one canonical text, in whatever order its members are written, exactly when no object in it at any depth holds two keys that tie |
| KeyTies.Twin | packages/domain/src/hashing.ts:9-11 | a value with a tie at any depth has a twin: the same meaning, sorted into another tree |
| CanonicalJson.StrictTreeValid | packages/keeperhub-client/src/safe-execution.ts:196-217 | what the client's traversal returns is a JSON value with printed numerals and unique keys; bigints became decimal strings |
| CanonicalJson.LooseTreeValid | packages/domain/src/hashing.ts:1-19 | what the domain's traversal prints is a JSON value with unique keys |
| CanonicalJson.StrictTextIsNormalForm | packages/keeperhub-client/src/safe-execution.ts:195-220 | the client's `canonicalJson` is a normal form of the trees it reads without further conditions |
| CanonicalJson.LooseTextIsNormalForm | packages/domain/src/hashing.ts:1-19 | the domain's `canonicalJson` is a normal form exactly when the locale comparator separates all different keys that are not indices |
| CanonicalJson.LooseTextKeepsMeaning | packages/domain/src/hashing.ts:1-19 | the domain's canonical text never merges two trees of different meaning |
| HostValues.StrictTextIff | packages/keeperhub-client/src/safe-execution.ts:195-220 | the client's `canonicalJson` accepts a value exactly when nothing in it is undefined or not finite, and two accepted values have one text exactly when they are the same value: the same kind and leaf, a bigint equal to its decimal text, arrays place by place, objects as maps |
| HostValues.LooseTextIff | packages/domain/src/hashing.ts:1-19 | the domain's `canonicalJson` accepts a value exactly when it has no bigint and is not itself undefined; values with one text are the same once undefined members are dropped and undefined items and non-finite numbers are null, and under an order without ties such values have one text |
| Decimals.CanonicalIdempotent | packages/keeperhub-client/src/safe-execution.ts:166-179 | the canonical decimal is a fixed point and denotes the same rational |
| Decimals.CanonicalIffEqual | packages/keeperhub-client/src/safe-execution.ts:166-179 | two inputs share a canonical decimal exactly when they denote the same rational |
| Decimals.UnitsExact | packages/keeperhub-client/src/safe-execution.ts:181-193 | unit conversion is exact, and refused exactly when the rational times ten to the places is no integer |
| Decimals.CapIsExact | packages/keeperhub-client/src/safe-execution.ts:321-329 | the units exceed the cap exactly when the number does, with no rounding |
| Decimals.ReducedUnique | packages/keeperhub-client/src/safe-execution.ts:173-178 | a decimal without redundant zeros is the only one of its number |
| SafeExecution.TaskIdRecovered | packages/keeperhub-client/src/safe-execution.ts:225-230 | an escaped task id can be undone to the trimmed id and holds no separator |
| SafeExecutionLaws.IntegersAgreeIff | packages/keeperhub-client/src/safe-execution.ts:152-164 | two amounts accepted as integers agree exactly when they denote the same rational, and the decimal reader takes them for that number too |
| SafeExecution.FindCallRule | packages/keeperhub-client/src/safe-execution.ts:306-318 | a rule that is found belongs to the policy and matches chain, target, function and selector |
| SafeExecution.AmountWithin | packages/keeperhub-client/src/safe-execution.ts:330-344 | an amount that passes is a plain integer at most the rule's cap; a rule without cap passes none |
| SafeExecutionLaws.PreparedWithinPolicy | packages/keeperhub-client/src/safe-execution.ts:295-369 | a prepared call is covered by a rule of its policy, with native value and amount within that rule's caps and the token where the rule wants it |
| SafeExecutionLaws.PreparedActionWithinPolicy | packages/keeperhub-client/src/safe-execution.ts:391-444 | a prepared protocol action is covered by a rule of its policy, has no parameters beyond the rule's, and is within the rule's cap and on its token |
| PolicyLaws.PreparedIff | packages/keeperhub-client/src/safe-execution.ts:295-389 | a call is prepared if and only if it is well formed in itself and the first rule of the policy that covers it takes its native value, amount and token |
| PolicyLaws.ActionPreparedIff | packages/keeperhub-client/src/safe-execution.ts:392-462 | a protocol action is prepared if and only if it is well formed in itself and the first rule for its chain and slugs takes its parameters, amount and token |
| PolicyLaws.SlugIff | packages/keeperhub-client/src/safe-execution.ts:396-403 | a slug is words of lower-case letters and digits joined by single dashes |
| PolicyLaws.IntegerIff | packages/keeperhub-client/src/safe-execution.ts:152-164 | an amount is read as a number exactly when the host value stands for that number: digits in a text with white space around them, a whole number, a bigint that is not negative |
| SafeExecutionLaws.CallKeyInjective | packages/keeperhub-client/src/safe-execution.ts:380-389 | one idempotency key means the same trimmed task, chain, target, selector, canonical arguments, canonical value and token |
| SafeExecutionLaws.ActionKeyInjective | packages/keeperhub-client/src/safe-execution.ts:452-460 | one action key means the same trimmed task, chain, slugs and canonical body |
| PolicyLaws.CallKeyText | packages/keeperhub-client/src/safe-execution.ts:380-389 | the text that is hashed for the key of a call, part by part in its order |
| PolicyLaws.ActionKeyText | packages/keeperhub-client/src/safe-execution.ts:452-460 | the text that is hashed for the key of an action, part by part in its order |
| PolicyLaws.BodyMembers | packages/keeperhub-client/src/safe-execution.ts:446 | the body of an action has its parameters and the chain in place of whatever they say of it, each key once |
| SafeExecutionLaws.KindsNeverShareKeys | packages/keeperhub-client/src/safe-execution.ts:380-460 | a contract call and a protocol action never share a key |
| SafeExecutionLaws.PayloadTextInjective | packages/keeperhub-client/src/safe-execution.ts:369-379 | a canonical body text determines every member, including whether value and gas multiplier are present |
| SafeExecutionLaws.PayloadHashBinds | packages/keeperhub-client/src/safe-execution.ts:369-379 | two prepared calls share a payload hash exactly when their bodies agree in every field |
| SafeExecutionLaws.PreparedPayload | packages/keeperhub-client/src/safe-execution.ts:369-379 | the body and payload hash of a prepared call in terms of the call |
| SafeExecutionLaws.BroadcastIsSimulated | packages/keeperhub-client/src/safe-execution.ts:669-690 | the broadcast gate opens exactly for an approved simulation of a call whose body agrees in every field |
| SafeExecutionClient.Client.Request | packages/keeperhub-client/src/safe-execution.ts:538-613 | one call sends at most `maxRateLimitRetries` + 1 requests, all with the same key and body, each not before the pause then in force and spaced by the server's retry delay; it goes on only after status 429; the client-wide pause is the largest reset seen and never falls |
| SafeExecutionClient.Client.PollExecution | packages/keeperhub-client/src/safe-execution.ts:708-730 | polling returns at the first final status, and fails exactly when none of the allowed polls is final |
| GatewayStore.ReserveKeeps | packages/database/src/repositories.ts:1015-1032 | a reservation keeps all constraints and every existing row |
| GatewayStore.ReserveFinds | packages/database/src/repositories.ts:1015-1032 | with the key's row in place a reservation returns that row and creates nothing |
| GatewayStore.UpdateKeeps | packages/database/src/repositories.ts:1051-1074 | an update that keeps a row's history keeps constraints and all other rows |
| GatewayStore.SuccessIsFinal | packages/database/src/schema.ts:436-439 | writing any other status to a successful execution aborts |
| GatewayStore.ReserveRequestKeeps | packages/database/src/repositories.ts:992-1008 | after a request reservation the intent-mech has a row with that request id, and nothing existing changed |
| GatewayStore.RecordSuccessKeeps | apps/api/src/olas-gateway.ts:504-532 | the success transaction keeps constraints and history, changes no other execution, and leaves a verified receipt and, for a request, its request row |
| GatewayStore.SecondSuccessAborts | packages/database/src/schema.ts:548-554 | recording success twice for one execution always aborts, whoever does it |
| ExecutionStore.Store.Reserve | packages/database/src/repositories.ts:1015-1032 | the method's result and new tables are those of the specification, constraints kept |
| ExecutionStore.Store.AttachExecution | packages/database/src/repositories.ts:1051-1062 | result and new tables as specified; nothing changes on failure |
| ExecutionStore.Store.MarkStatus | packages/database/src/repositories.ts:1063-1074 | result and new tables as specified; nothing changes on failure |
| ExecutionStore.Store.MarkEconomicSuccess | packages/database/src/repositories.ts:1033-1050 | result and new tables as specified; nothing changes on failure |
| ExecutionStore.Store.ReserveRequest | packages/database/src/repositories.ts:992-1008 | result and new tables as specified; nothing changes on failure |
| ExecutionStore.Store.RecordSuccess | apps/api/src/olas-gateway.ts:505-531 | three writes in one transaction: either all of them are in the tables or none |
| Gateway.StepKeeps | apps/api/src/olas-gateway.ts:395-532 | every step of every submitter keeps the invariants that tie program counters, rows, wire log and records together, and only adds to the store |
| Gateway.AtMostOneBroadcast | apps/api/src/olas-gateway.ts:395-466 | over every interleaving, replay and crash: at most one broadcast call per idempotency key and at most `maxRateLimitRetries` + 1 requests for it |
| Gateway.BroadcastsAreApproved | apps/api/src/olas-gateway.ts:395-442 | every call and request was preceded by an approved simulation with its payload hash, and the reservation of its key stores that hash |
| Gateway.SameKeySameRequest | packages/keeperhub-client/src/safe-execution.ts:538-606 | everything sent under one key has one payload hash, one body and one sender |
| Gateway.SuccessRows | packages/database/src/schema.ts:426-465 | a successful execution is completed, has an execution id and exactly one receipt, which is verified; it is the only success of its intent and purpose; a successful request has exactly one request row of its Mech |
| GatewayRows.RowStep | apps/api/src/olas-gateway.ts:405-532 | in every step of every submitter each execution row appears by its reservation, stays as it is, or is written by its own submitter as that submitter's state says |
| GatewayRows.RejectionMarks | apps/api/src/olas-gateway.ts:478-487 | a rejected execution keeps everything but its status, which becomes the verdict, unless another submitter has recorded it as a success, which stays |
| GatewayRows.AnswerAttaches | apps/api/src/olas-gateway.ts:453-459 | an answered broadcast leaves the row as broadcast with the id of the answer, unless a row has that id already; then nothing is written and the submission ends |
| GatewayRows.StatusLaw | packages/database/src/repositories.ts:1015-1074 | in every run a row is pending exactly while it has no execution id and completed exactly when it is an economic success |
| GatewayRows.VerdictIsReached | apps/api/src/olas-gateway.ts:478-487 | in every run a row has a verdict for a status only after a submitter of this row rejected it with that verdict |
| GatewayEvidence.ReceiptsAreProved | apps/api/src/olas-gateway.ts:468-521 | in every reachable store each receipt row was written on an earlier confirmation of that row's execution id, on raw evidence in which service and node agree in every field, for that transaction |
| GatewayEvidence.RequestsAreExtracted | apps/api/src/olas-gateway.ts:496-531 | in every reachable store each request row carries the id that the marketplace event of its Mech has in the receipt of such a confirmation |
| GatewayEvidence.StepBacks | apps/api/src/olas-gateway.ts:468-532 | every step keeps each row and each verified submitter backed by a confirmation among the events so far |
| Gateway.StoreOnlyGrows | packages/database/src/repositories.ts:992-1074 | in every continuation rows keep identity, simulation hash and execution id, and no success, receipt or request is taken back |
| Gateway.AmbiguousForGood | apps/api/src/olas-gateway.ts:460-466 | when the creator of a row stopped before attaching, no continuation changes that row or sends anything under its key |
| Gateway.RunKeeps | apps/api/src/olas-gateway.ts:395-532 | the invariants hold along every run |
| GatewayService.Service.Broadcast | packages/keeperhub-client/src/safe-execution.ts:538-606 | the broadcast with its retry loop is a run of the step machine for the submitter, each answer the service's |
| GatewayService.Service.SimulateAndReserve | apps/api/src/olas-gateway.ts:395-421 | simulation and reservation as a run: stopped on refusal, drift or ambiguity, otherwise reserved or reconciling |
| GatewayService.Service.ReserveAndCheck | apps/api/src/olas-gateway.ts:407-466 | the reservation step and its checks give the step machine's next state; drift is reported exactly when the key is reserved for another payload, ambiguity exactly when it is reserved for this one without an answer |
| GatewayService.Service.BroadcastAndAttach | apps/api/src/olas-gateway.ts:426-459 | pause check, broadcast and attachment as a run: reconciling with the returned execution id, or stopped |
| GatewayService.Service.MarkVerdict | apps/api/src/olas-gateway.ts:477-495 | a decision that is no confirmation as a run that marks the row with it and ends stopped |
| GatewayService.Service.RecordConfirmed | apps/api/src/olas-gateway.ts:496-532 | a verified decision as a run that reads the request id from the node's receipt and finishes exactly when a receipt is returned, writing nothing for a reservation already successful |
| GatewayService.Service.Submit | apps/api/src/olas-gateway.ts:294-540 | a whole submission is exactly its submitter's steps to the end; it succeeds exactly when the submitter finished, and otherwise fails for the reason that its last step gives: simulation, drift, ambiguity, pause, broadcast, missing id, store, reconciliation, verdict or request id |
| GatewayService.VerdictWaits | apps/api/src/olas-gateway.ts:468-477 | reconciliation is given five minutes from its start: the pending verdict is the retryable one before that and final from then on |
| GatewayAdmission.AdmittedBounds | apps/api/src/olas-gateway.ts:302-393 | an admitted call is for the active manifest, an intent in procurement and an eligible Mech; it spends no native value, approves exactly the frozen quote or requests at most it from the submitted Mech, is never a supply, and is the canonical encoding of the submitted data |
| GatewayAdmission.PolicyAdmits | apps/api/src/olas-gateway.ts:208-250 | the policy built for an admitted call always lets that call through |
| AdmittedCalls.CallIsCalldata | apps/api/src/olas-gateway.ts:188-250 | the call that is sent is the calldata that was validated: its arguments, read by the parameter types of the rule's ABI signature and encoded behind the call's selector, are the submitted data, and its target is the submitted one |
| AdmittedCalls.OnlyAdmittedCalls | apps/api/src/olas-gateway.ts:208-230 | whatever else the policy of an admitted submission lets through has its chain, target and selector, no native value and an amount up to the approved maximum |
| AdmittedCalls.NamesOfSignatures | apps/api/src/olas-gateway.ts:232-245 | the function name of a call is the one in its rule's signature |
| AdmittedCalls.AdmittedIff | apps/api/src/olas-gateway.ts:294-393 | a submission is admitted if and only if it has the shape, names the active manifest, its intent is ready for procurement or executing it, its maximum is the frozen quote, its Mech is eligible, it comes from the wallet, and its data is a call within the manifest's bounds that spends what was approved |
| AdmittedCalls.RefusedIff | apps/api/src/olas-gateway.ts:294-372 | which of the checks before the calldata refuses a submission: the first that fails, in the order of the source |
| GatewayAdmission.TaskIdInjective | apps/api/src/olas-gateway.ts:238 | the task id determines intent, Mech and kind of call, whatever characters the intent id has |
| GatewayAdmission.PurposeTextInjective | apps/api/src/olas-gateway.ts:406 | the stored purpose determines kind of call and Mech |
| GatewayAdmission.PlansHaveBindingKeys | apps/api/src/olas-gateway.ts:405-415 | two admitted submissions with one idempotency key are for the same intent, Mech and kind of call |
| GatewayAdmission.AdmittedRuns | apps/api/src/olas-gateway.ts:294-540 | runs whose plans all come from admission have at most one broadcast call per key and bounded requests |
| GatewayAdmission.PlanSays | apps/api/src/olas-gateway.ts:294-405 | a plan is for the submitted intent and Mech, and its sender is the organization's wallet |
| IntentStates.AssertTransition | packages/domain/src/state-machine.ts:78-88 | succeeds exactly on edges of the table |
| IntentStates.TransitionIntent | packages/domain/src/state-machine.ts:90-108 | a transition succeeds exactly on a legal edge with the intent's trace id and a time not before its latest update |
| IntentStates.SourcesIff | packages/domain/src/state-machine.ts:33-50 | the lifecycle graph read backwards: which states lead to each state |
| IntentStates.RefusedIff | packages/domain/src/state-machine.ts:78-108 | which error a refused transition has: finality, the graph, the trace, the time, in this order |
| IntentStates.TerminalIff | packages/domain/src/state-machine.ts:23-50 | the terminal states are exactly those without successors |
| IntentStates.AtMostElevenTransitions | packages/domain/src/state-machine.ts:33-50 | no legal path has more than eleven transitions; one that has them starts at DRAFT and ends terminal |
| IntentStates.ElevenTransitionsPossible | packages/domain/src/state-machine.ts:33-50 | the bound is reached |
| IntentStates.TerminalIsLast | packages/domain/src/state-machine.ts:78-88 | nothing follows a terminal state on a legal path |
| IntentStates.ExecutingWasEvaluated | packages/domain/src/state-machine.ts:33-50 | a path from DRAFT that reaches EXECUTING passed EVALUATING and then EXECUTION_READY |
| IntentStates.SuccessEvaluatedIff | packages/domain/src/state-machine.ts:38-47 | a successful path from DRAFT was evaluated exactly when it was executed, and that exactly when its procurement was not left unconfirmed |
| IntentStates.SuccessWithoutEvaluation | packages/domain/src/state-machine.ts:38-47 | a legal successful path without evaluation |
| MessageKeys.KeyInjective | apps/worker/src/coordinator.ts:40 | advance and reconcile message keys determine intent, kind and version, whatever characters the intent id has |
| MessageKeys.EventKeysApart | apps/worker/src/coordinator.ts:78 | event keys never equal advance or reconcile keys |
| MessageKeys.EventKeyInjective | apps/worker/src/coordinator.ts:78 | within one source the key determines the event |
| MessageKeys.EventKeysCollideIff | apps/worker/src/coordinator.ts:78 | two sources can produce one key exactly when one name with its separator starts the other |
| MessageKeys.SameJobIff | packages/queue/src/index.ts:158-159 | two message ids share a job id exactly when they differ only in colons against dashes |
| MessageKeys.JobIdSharedIff | packages/queue/src/index.ts:158-159 | another message id shares an id's job exactly when the id holds a colon or a dash |
| CoordinatorStore.ReconcileCreatesOnce | packages/database/src/repositories.ts:665-690 | a reconcile message is created exactly when none was created for that intent and version, whatever else the outbox holds |
| CoordinatorStore.KeyTaken | apps/worker/src/coordinator.ts:240 | a reconcile key is in the outbox exactly when that intent and version have a reconcile row |
| CoordinatorStore.IngestGainsIff | apps/worker/src/coordinator.ts:53-88 | a new event is always recorded; it gains its message exactly when the message's key is free, and otherwise the outbox stays as it is |
| Coordinator.StaleReadLoses | packages/database/src/repositories.ts:692-717 | a transition computed from any earlier row passes the compare-and-swap only if that row is still the current one |
| Coordinator.HistoryExtends | packages/domain/src/state-machine.ts:90-135 | a committed transition extends a good history by one legal, numbered, hash-linked event |
| Coordinator.StepKeeps | packages/database/src/repositories.ts:665-1179 | every step of writers, publishers, lease expiry, reconcilers and processors keeps the history, outbox and queue invariants |
| Coordinator.AuditTrail | packages/database/src/repositories.ts:692-737 | in every reachable state each intent has audit events for exactly versions 1 to its version, at most eleven, chained by state, hash and time from DRAFT to its row; an executing intent was evaluated and then made ready, and a succeeded one was exactly when its procurement was not left unconfirmed |
| Coordinator.OneCommitPerVersion | packages/database/src/repositories.ts:692-737 | no two commits leave the same version of an intent, under duplicated, redelivered and racing work |
| Coordinator.AdvanceCreatesRow | packages/database/src/repositories.ts:880-892 | the step that moves an intent also creates its pending advance message, with the topic, intent, trace, state, version and times of that move, or nothing happens |
| Coordinator.NoLostWork | packages/database/src/repositories.ts:1091-1179 | in every reachable state each version from 1 to an intent's version has exactly one advance message, whatever topic: published with its job queued, dead after the allowed attempts, pending and due, or leased and claimable again by anyone after expiry |
| Coordinator.AdvanceMessagesAreReached | packages/database/src/repositories.ts:880-892 | every advance message is for a version its intent has reached |
| MessageLaws.AdvanceMessageSays | apps/worker/src/coordinator.ts:29-51 | in every reachable state an advance message has the intent, topic and version of its key, and the state, entry time and trace of that intent's audit event for that version |
| MessageLaws.ReconcileMessageSays | apps/worker/src/coordinator.ts:233-255 | in every reachable state a reconcile message repeats a row that its intent had at that version |
| MessageLaws.IngestedMessageSays | apps/worker/src/coordinator.ts:53-88 | the message of an ingested event repeats the event's job |
| MessageLaws.JobSays | apps/worker/src/coordinator.ts:142-200 | in every reachable state a queued job repeats its message field by field |
| MessageLaws.AdvanceJobRuns | apps/worker/src/coordinator.ts:275-296 | the locked processor runs the handler of an advance message's job exactly while the stored intent is still at the version the advance reached |
| Coordinator.OutboxStatus | packages/database/src/repositories.ts:1091-1179 | published implies a queued job, dead implies the attempt limit, attempts equal the claims ever made, and leased rows are exactly those with a lock time |
| Coordinator.RunForward | packages/database/src/repositories.ts:1091-1179 | in every continuation published and dead messages are final, attempts never fall, versions only grow, terminal intents never change and the audit trail only gets longer |
| CoordinatorLaws.PublishedJobIsOwn | packages/queue/src/index.ts:158-178 | a published message's queued job is its own unless another message of the outbox shares the job id |
| CoordinatorLaws.SharedJobReachable | packages/queue/src/index.ts:158-178 | for any two ids that share a job id, a run in which the second message is published while the queue holds the first one's job |
| CoordinatorLaws.OwnJobIff | packages/queue/src/index.ts:158-178 | a message is sure of its own job in every reachable state exactly when its id holds neither a colon nor a dash |
| CoordinatorLaws.EventMessageIff | apps/worker/src/coordinator.ts:53-88 | in every reachable state a new event is recorded; every continuation holds its message if no other recorded event's message has its key, and none does otherwise |
| CoordinatorLaws.CollidingEventLost | apps/worker/src/coordinator.ts:78 | for any two different events with one key, the second is accepted and never gets its message, however the run goes on |
| CoordinatorLaws.CollidingEvents | apps/worker/src/coordinator.ts:78 | two such events |
| Coordinator.OneReconcilePerVersion | apps/worker/src/coordinator.ts:233-255 | any number of reconcilers leave one message per intent and version |
| Coordinator.CommittedJobIsSpent | apps/worker/src/coordinator.ts:279-296 | once a job's handler moved its intent, no redelivery of the job ever runs the handler again |
| CoordinatorDatabase.Database.ApplyTransition | packages/database/src/repositories.ts:692-737 | result and new tables as specified: compare-and-swap with the audit event, or nothing |
| CoordinatorDatabase.Database.Enqueue | packages/database/src/repositories.ts:665-690 | result and new outbox as specified; an existing key creates nothing |
| CoordinatorDatabase.Database.ApplyTransitionWithOutbox | packages/database/src/repositories.ts:880-892 | transition and message in one transaction; a failure of the second undoes the first |
| CoordinatorDatabase.Database.Ingest | apps/worker/src/coordinator.ts:53-88 | a replayed event changes nothing; a new one is recorded, and its message enqueued in the same transaction unless the message's key is taken; a failure records neither |
| CoordinatorDatabase.Database.SelectClaimable | packages/database/src/repositories.ts:1095-1108 | the query returns different claimable messages, at most the limit, and none that comes behind one left out in the order of due time and then creation time |
| CoordinatorDatabase.Database.ClaimBatch | packages/database/src/repositories.ts:1091-1121 | a batch is such a selection, leased in one transaction, and every other message is left alone; limits outside 1 to 100 are refused |
| CoordinatorDatabase.Database.MarkPublished | packages/database/src/repositories.ts:1122-1144 | only a leased message is published, otherwise an error and no change |
| CoordinatorDatabase.Database.MarkRetry | packages/database/src/repositories.ts:1145-1161 | a leased message becomes pending or, at the attempt limit, dead; other messages are left alone |
| CoordinatorDatabase.LeftOutIsLater | packages/database/src/repositories.ts:1095-1108 | a claimable message left out of a full batch is due no earlier than any in it, and among equally due ones no older |
| Leases.ClaimLeases | packages/database/src/repositories.ts:1091-1121 | a claim leases exactly a due message, to this worker from now on and with one more attempt, and changes nothing else |
| Leases.LeaseHolds | packages/database/src/repositories.ts:1091-1179 | after a claim another claim or a release takes effect exactly when its expiry limit lies after the time of the claim |
| Leases.RequeueReleases | packages/database/src/repositories.ts:1162-1179 | exactly an expired lease is released; the message is pending again since it was due and keeps its attempts |
| Leases.RetryGivesBack | packages/database/src/repositories.ts:1145-1161 | a failed delivery leaves the leased message pending from the retry time on, or dead once it has had all its attempts |
| Leases.RetryIsDue | packages/database/src/repositories.ts:1095-1161 | a message given back with attempts left is taken exactly from its retry time on |
| Leases.PublishEnds | packages/database/src/repositories.ts:1122-1144 | exactly a leased message whose job was added becomes published, and its lease ends |
| CoordinatorService.BatchIsClaims | packages/database/src/repositories.ts:1111-1120 | a claimed batch is a sequence of single claims of the transition system |
| CoordinatorService.HandlingIsRun | apps/worker/src/coordinator.ts:171-196 | handling one message is a run of its task: the job is added before the message is marked, and any failure is followed by a retry |
| CoordinatorService.Worker.PublishOne | apps/worker/src/coordinator.ts:171-196 | one claimed message ends published exactly when adding its job succeeds and it is still leased, with its job in the queue; otherwise it is retried after the bounded backoff |
| CoordinatorService.Worker.DrainOnce | apps/worker/src/coordinator.ts:156-199 | the earliest due batch is leased and handled in full as a run: each message is published with its job queued when nothing fails, otherwise pending again after the delay for its attempts or dead, with exact counts and the rest of the outbox untouched |
| CoordinatorService.Worker.RequeueExpiredLeases | packages/database/src/repositories.ts:1162-1179 | exactly the expired leases are released, and the result is their number |
| CoordinatorService.Worker.ReconcileOne | apps/worker/src/coordinator.ts:235-253 | a message is created exactly when the intent still has the version that was read and that version has no reconcile message |
| CoordinatorService.Worker.RunOnce | apps/worker/src/coordinator.ts:217-262 | a pass releases exactly the expired leases and adds only reconcile messages, made now, for listed intents that are overdue and unmoved, with exact counts; with new ids every such intent has its message afterwards |
| CoordinatorService.OverdueIff | packages/queue/src/index.ts:19-45 | when an intent is overdue: how long each state may last, in milliseconds, and never when it is final |
| CoordinatorService.Worker.ProcessJob | apps/worker/src/coordinator.ts:279-296 | the handler, whatever it writes, runs exactly when the locked intent is at the job's state and version, on that intent; otherwise nothing changes |
| CoordinatorService.Worker.Perform | apps/worker/src/coordinator.ts:272-296 | a handler's writes are one transaction: all of them, or none when one fails |
| Backoff.BackoffBounds | packages/queue/src/index.ts:113-127 | for every random value the delay lies between 650 ms and its ceiling, the ceiling is at most a minute and never falls with more attempts |
| Backoff.CeilingDoubles | packages/queue/src/index.ts:113-127 | the ceiling is one second up to the first attempt and doubles with every further attempt until it reaches a minute, where it stays |
| Backoff.BackoffSpreads | packages/queue/src/index.ts:113-127 | the delay grows with the random value, from 65 percent of the ceiling to the ceiling |
| ReceiptLaws.QuantityIffEqual | packages/keeperhub-client/src/receipt-verification.ts:145-158 | two quantities share a normal form exactly when they denote the same number |
| ReceiptLaws.SpellingsAgree | packages/keeperhub-client/src/receipt-verification.ts:145-158 | a number, its decimal text and its hexadecimal text are one quantity |
| ReceiptLaws.SpacedQuantity | packages/keeperhub-client/src/receipt-verification.ts:145-158 | white space around a quantity is ignored |
| ReceiptLaws.LargeNumbers | packages/keeperhub-client/src/receipt-verification.ts:145-158 | a number beyond the safe integers is refused, a decimal text of any length is taken |
| ReceiptLaws.StatusIff | packages/keeperhub-client/src/receipt-verification.ts:160-167 | a status reads as success exactly for true, 1, "1", "0x1" and "success", as reverted exactly for false, 0, "0", "0x0" and "reverted", and everything else is refused |
| ReceiptLaws.StatusIsNumber | packages/keeperhub-client/src/receipt-verification.ts:145-167 | a status that is a quantity reads by its number: one is success, zero is reverted |
| ReceiptLaws.ReceiptReads | packages/keeperhub-client/src/receipt-verification.ts:198-231 | a raw receipt is taken exactly when every member has its form, and each field of the normal form is read from its own member |
| ReceiptLaws.ReceiptHashBinds | packages/keeperhub-client/src/receipt-verification.ts:233-234 | two normalized receipts share a hash exactly when they agree in every field and every log |
| ReceiptLaws.ReceiptsAgreeIff | packages/keeperhub-client/src/receipt-verification.ts:198-231 | two raw receipts that can be read have one normal form exactly when they agree in every field and every log: quantities, log indices included, as numbers, hexadecimal texts up to case, the status as success or revert in any of its spellings |
| ReceiptDecisions.PendingIff | packages/keeperhub-client/src/receipt-verification.ts:467-598 | the two pending answers are given exactly while nothing contradicts and something is still missing: UNCONFIRMED before the deadline, TIMED_OUT from it on |
| ReceiptDecisions.ThrowsIff | packages/keeperhub-client/src/receipt-verification.ts:475-492 | no decision is made, and an error thrown, exactly when the node does not say which chain it is on or does not answer for the receipt |
| ReceiptDecisions.MismatchIff | packages/keeperhub-client/src/receipt-verification.ts:430-550 | EVIDENCE_MISMATCH exactly when the service's response cannot be read or the two sides contradict each other: another execution, transaction or chain, a malformed receipt of the node, or two receipts that differ in a field |
| ReceiptDecisions.FailureIff | packages/keeperhub-client/src/receipt-verification.ts:551-569 | on receipts that agree, the Safe's own failure is reported first and a reverted transaction exactly otherwise |
| ReceiptDecisions.VerifiedIff | packages/keeperhub-client/src/receipt-verification.ts:430-591 | VERIFIED_SUCCESS exactly when execution, transaction and chain are right, both normalized receipts are present and equal field by field, the receipt is not reverted, the Safe accepts, and the service asserts success |
| ReceiptDecisions.VerifiedAgreement | packages/keeperhub-client/src/receipt-verification.ts:407-599 | a verified success on raw evidence: the response holds a receipt, the node returned one on chain 8453 whose raw status is one of the spellings of success, and the two agree in every field and every log, quantities as numbers |
| ReceiptDecisions.VerifiedOnRaw | packages/keeperhub-client/src/receipt-verification.ts:407-599 | VERIFIED_SUCCESS on raw evidence, both directions: agreed receipts, a status that says success, no failure event of the Safe and, where required, its success event, and the service's own assertion |
| ReceiptDecisions.RevertedOnRaw | packages/keeperhub-client/src/receipt-verification.ts:551-569 | on agreed raw receipts: SAFE_INNER_FAILURE exactly when the Safe's failure event is among the logs, REVERTED exactly when it is not and the raw status is one of the spellings of a revert |
| ReceiptDecisions.FirstSource | packages/keeperhub-client/src/receipt-verification.ts:247-259 | a claim of the service is taken from its response, else from its result, else from its receipt |
| ReceiptDecisions.NestedIff | packages/keeperhub-client/src/receipt-verification.ts:236-239 | the service's receipt is the response's own, else its result's |
| ReceiptDecisions.NodeAnswerIff | packages/keeperhub-client/src/receipt-verification.ts:490-518 | the node's answer counts as no receipt yet exactly when it is null or undefined, and as a receipt exactly when it is an object that can be read |
| ReceiptDecisions.StableIff | packages/keeperhub-client/src/receipt-verification.ts:407-599 | under growing evidence and advancing time a final decision stays exactly unless it was not a mismatch and the service belatedly names another execution |
| ReceiptDecisions.SuccessWithdrawn | packages/keeperhub-client/src/receipt-verification.ts:407-599 | for every raw receipt that can be read and reports success: the response that holds it without an execution id is verified, and the same response naming another execution is a mismatch |
| ReceiptDecisions.PlainReceiptReads | packages/keeperhub-client/src/receipt-verification.ts:198-231 | a concrete receipt of that kind |
| ReceiptDecisions.FailureEventBlocks | packages/keeperhub-client/src/receipt-verification.ts:296-315 | one failure event of the Safe among the node's raw logs, in whatever place and with whatever else, excludes a verified success |
| ProofBundles.ForbiddenIff | packages/domain/src/proofs.ts:10-11 | a key is dropped exactly when it spells one of the nine names of the source in any mixture of letter cases, the two characters included that the case-insensitive comparison folds to s and k |
| ProofBundles.CaseVariants | packages/domain/src/proofs.ts:10-11 | every key whose lower-case form is that of one of the nine names spells it |
| ProofBundles.RedactedHasNoNames | packages/domain/src/proofs.ts:13-22 | a redacted value has no key at any depth that spells one of the nine names |
| ProofBundles.RedactedMembers | packages/domain/src/proofs.ts:15-20 | the redacted object has exactly the members whose key spells none of the nine names, each with its redacted value |
| ProofBundles.RedactedPositions | packages/domain/src/proofs.ts:14 | a redacted array keeps its length and has each item redacted in place; leaves stay as they are |
| ProofBundles.NamelessIsKept | packages/domain/src/proofs.ts:13-22 | a value with no such key at any depth is published unchanged |
| ProofBundles.JsonIff | packages/domain/src/proofs.ts:47-73 | a payload is JSON exactly when it holds nothing undefined, no bigint and no number that is not finite, and then reading it back gives it again |
| ProofBundles.CreatedVerifies | packages/domain/src/proofs.ts:47-118 | creation fails exactly on no artifacts or a payload that is not JSON; what it returns verifies with no invalid position, describes its artifacts in place, publishes each redacted payload, and holds no key that spells one of the nine names at any depth |
| ProofBundles.CreatedHasNoVariant | packages/domain/src/proofs.ts:10-92 | a key that is one of the nine names up to letter case is at no depth of any entry of a created bundle |
| ProofBundles.InvalidExactly | packages/domain/src/proofs.ts:103-105 | the listed positions are exactly those whose payload no longer has its stored hash |
| ProofBundles.RootBinds | packages/domain/src/proofs.ts:94-118 | bundles that verify under one root have the same length, kinds and payloads up to key order |
| ProofBundles.SameContentSameRoot | packages/domain/src/proofs.ts:75-81 | where no payload has tying keys, equal content gives equal roots |
| ProofBundles.RootIgnoresDescriptions | packages/domain/src/proofs.ts:75-81 | names, references and recording times can be replaced in a verified bundle |
| Quorum.DivergenceIff | packages/domain/src/quorum.ts:120-137 | maximum minus minimum within the limit says that every pair is |
| Quorum.DistinctIff | packages/domain/src/quorum.ts:51-63 | the set of Mechs is as large as the list exactly when they are pairwise different |
| Quorum.PassedIffAgreement | packages/domain/src/quorum.ts:40-163 | PASSED exactly when at least two recommendations parsed, each is acceptable and fresh, every two are from different Mechs and within the divergence, and the amount is a positive numeral within the cap |
| Quorum.DroppingKeepsQuorum | packages/domain/src/quorum.ts:40-163 | a quorum survives every reordering and every dropping that leaves two |
| Quorum.OrderDoesNotMatter | packages/domain/src/quorum.ts:40-163 | the result is the same for every permutation |
| Quorum.LooseningKeepsQuorum | packages/domain/src/quorum.ts:40-163 | a looser policy keeps a quorum |
| MarketplaceEvents.TopicAddressIff | packages/olas-contracts/src/events.ts:33-37 | a topic yields an address exactly when it is that address behind twelve zero bytes |
| MarketplaceEvents.MatchesIff | packages/olas-contracts/src/events.ts:71-77 | a log matches exactly when emitter, signature, Mech and requester do |
| MarketplaceEvents.ExtractedIff | packages/olas-contracts/src/events.ts:52-98 | an id is returned exactly when one log and no other matches, none is malformed, and its data holds that one nonzero id |
| MarketplaceEvents.DecodedIff | packages/olas-contracts/src/events.ts:82-97 | event data yields an id exactly when it is the data of an event for one request: a count of one, an aligned offset behind the head, a length of one there, and the nonzero id after it |
| MarketplaceEvents.EventRoundTrip | packages/olas-contracts/src/events.ts:82-97 | event data that encodes one nonzero id gives it back in lower case, whatever payload follows |

## Left out

- Concurrency inside the methods: `GatewayService.Service.Submit`, `CoordinatorService.Worker.DrainOnce` and `RunOnce` run without others in between; interleaving is covered by the step machines they are runs of.
- CoordinatorDatabase.Database.ClaimBatch: rows locked by a concurrent transaction, which the source's query skips, do not occur, because a transaction is one step.
- SafeExecutionClient.Client.Request: a sleep lasts at least as long as asked; timer early wake-ups and request timeouts are not modelled.
- ReceiptDecisions.StableIff: evidence is compared after normalization; a response that turns malformed is not growth.
- CanonicalJson.StrictTextIsNormalForm: numbers are held by their printed numerals, so the printing of floating-point numbers is assumed injective; texts are Unicode scalar values, so lone surrogates are not modelled.
- RoutingLaws.AcceptanceIff: calldata is limited to 2^53 - 1 characters, the longest text of the source language.
- `BigInt` of hexadecimal, blank or empty text: manifest caps and amounts are read as decimal digits only.
- Lower-casing of characters outside ASCII.
- Shapes of request bodies and rows: fields that schema validation would refuse for their type are not modelled; ISO dates are taken as integers.
- What runtime-code hashes, proxy slots and sources of the manifests refer to; manifest hashing, freezing and update audit events.
- Mech discovery, scoring, directory cache, delivery parsing and envelope publishing of the adapter; ABI default values.
- The transport between the gateway and the execution service beyond key, body, status and rate-limit headers; credentials, tokens, cookies, identity, user interface.
- PostgreSQL and BullMQ internals: a transaction is one step, the queue is the record of job ids ever added; its age-based removal, job attempts and the state deadline race.
- CoordinatorService.Worker.ProcessJob: a handler is any list of advances and ingested events in one transaction; other writes a handler could make through the repositories are not modelled.
- Gateway.StepKeeps: a rejecting verdict of the step machine is any verdict; in `GatewayService` it is the decision on the evidence received.
- SHA-256 and Keccak themselves.
- Spending limits, Aave deltas, roles, metrics, logging, health checks and migrations, which would only add direct comparisons.
