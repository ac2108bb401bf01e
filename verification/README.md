# Constellation node SDK: verified model

This project models the transport packet protocol of the Constellation node SDK and the stateful
components around it, and proves what the protocol is for: that hashes commit to content and history, that
every run of the operations keeps a packet valid, that what is sent is what arrives, and that a worker's
answer is the answer Gate accepts. `dafny verify dfyconfig.toml` checks everything.

## How it is organised

| file | part of the SDK |
|---|---|
| Wrappers, Strings | results for raised exceptions; the string operations the code relies on |
| Json, Canonical, JsonReader | `transport/hashing.py`: canonical JSON, what its text determines, and a reader for it |
| Models, Platforms | the frozen models with their validators; digest, MAC, Ed25519 and time text as parameters |
| Hashing, Packets | payload, transport and hop hashes; create, derive, append, integrity |
| ModelRules, Makers | what constructors, derive and the hop builders make of any argument, field by field |
| Signatures, HopTraces, Runs | signing and verification; the hash-chained hop trace; runs of appends and signatures |
| Lineages | the branching derivation tree |
| Codec, RoundTrip, Deliveries | encode, decode, and every packet of every run over the wire |
| FieldNames, DecodeRules | which value stands under which name, hashed, sent and received |
| Validation, RefusalRules | `security/validation.py`, and its rules as a table in order |
| Execution, Dispatch | the worker that answers and Gate's check of the answer |
| AnswerContents, GateSide | what answers and error packets say; keys, signatures and errors on Gate's side |
| Sizes, Witnesses | a bound on the size of a packet's text; concrete packets, signed hops and children |
| Tracestate, TraceContext, TraceRules | `trace_context.py`, with its grammar and limits |
| CapabilityCache, CacheRuns, CacheHits | the capability client, its calls in every interleaving, and when one hits |
| Participation, Readiness | registration attempts in every interleaving, and readiness bound to them |
| Orchestration, Registration | the two bounded retry loops |
| Refusals, Exchanges | concrete requests, steps and exchanges on which a promise fails or an assumption is met |

The digest is an arbitrary function into 64 hexadecimal characters. Nothing assumes that it, or the MAC, is
free of collisions: a commitment theorem says that two things are equal or names two different byte strings
with one digest. Clock readings and fresh identifiers are inputs. A time is a whole number of microseconds in UTC,
and the only law about its textual form is that a written time reads back. A dict is a list of fields in insertion
order. Exceptions are the `Err` case of a result.

Where the source changes state the model does too: the loops are methods with invariants, and the capability
client, its cache entries, the participation, the node application and the step executor are classes. Their
methods are tied to step functions on values, and the theorems over all runs are about those functions.

That the assumptions on platforms and packets can be met is shown by lawful platforms (`Witnesses.LawfulExists`), valid
roots and children on every platform (`Witnesses.ValidRootExists`, `Witnesses.PlainDerives`), a packet that Gate may post
(`Exchanges.RoutedMayBePosted`) and a whole exchange that succeeds (`Exchanges.ExchangeHappens`).

Some promises do not always hold. For each the proofs give the exact condition, and a packet or a run that breaks the
promise:

- A response hop with status `failed` carries no error, so a handler that returns that status gets no response
  packet (`ExecuteExactly`, `FailedStatusUnanswered`).
- `not_before` is inherited, so a request that carries one can be answered at one instant only
  (`NotBeforeLeavesOneInstant`, `WaitingRequestUnanswered`); a request past `expires_at` gets neither response nor error
  packet (`ExecuteExactly`, `ErrorExactly`, `ExpiredRequestUnanswered`).
- An error packet cannot be built when internal errors are exposed and the exception has a blank text (`ErrorExactly`,
  `BlankErrorUnanswered`).
- A derived packet meets the replay rule exactly when its packet type and replay mode, given or inherited, agree
  (`DerivedReplayExactly`). Answers inherit replay mode, so a replay request to a worker never succeeds
  (`ReplayAnswerRefused`, `ReplayNeverAnswered`, `ReplayIsLost`).
- A root packet created as restricted or tagged GDPR is refused by validation under every configuration, because
  creation sets neither the audit flag nor a data subject (`CreatedAccepted`, `SensitiveRootsRefused`).
- A built hop passes its own validators exactly when its key id is not blank (`MadeHopNormal`). One that is blank is
  appended, accepted by trace validation and refused by the decoder (`BlankKeyIdRefused`, `BlankKeyIdHappens`).
- Gate passes no keys to the hop check: with hop verification on it accepts exactly what it accepts with it off and has
  no signed hop (`SignedHopsExactly`, `SignedHopDividesGate`).
- `derive(hop=...)` takes any hop. The child's trace is accepted exactly for a hop that opens the child's own chain
  (`DeriveHopExactly`), and a hop built beforehand never is one (`DeriveHopRefused`, `EarlyHopRefused`).
- A list call that resumes with a 304 reads the slot again, and returns what the server answered about exactly when the
  entry there carries the tag that was asked about (`ListRevalidatedExactly`). When another list call has stored another
  tag, it can return what the server dropped long before (`OverlappingListsGoStale`); in runs without that, lists are
  fresh (`ListingIsFresh`).
- The power behind a retry delay can overflow before the cap applies, and the error ends the step at once. A step ends so
  exactly when its last packet failed in a way that was to be retried and the delay after it overflows
  (`StepOverflowsExactly`, `OverflowHappens`).

`docs/transport-packet.md` lines 141-145 say that a response keeps the request's packet id and reverses its
addresses. The code gives it a new id and sends it to `reply_to` (`runtime/execution.py` lines 145-152); the
model follows the code.

## Model

| member | source | states |
|---|---|---|
| Strings.AtMostMeans | src/constellation_node_sdk/transport/hashing.py:13-46 | keys compare by code point: at the first difference the smaller one is first, and a beginning before what continues it |
| Canonical.CanonicalExactly | src/constellation_node_sdk/transport/hashing.py:13-34 | the canonical form is the one value with the same content whose keys ascend strictly in every object |
| Canonical.CanonicalIffSame | src/constellation_node_sdk/transport/hashing.py:13-34 | two well-formed values canonicalise alike exactly when they are the same JSON value, up to the order of keys at any depth |
| Canonical.CanonicalizeIdempotent | src/constellation_node_sdk/transport/hashing.py:13-34 | sorting the keys a second time, as json.dumps does, changes nothing |
| Json.WriteInjective | src/constellation_node_sdk/transport/hashing.py:37-46 | the compact text of a value determines the value, string escapes included |
| JsonReader.ReadBack | src/constellation_node_sdk/transport/hashing.py:37-46 | a JSON reader written from RFC 8259 alone reads every written text back to its value |
| JsonReader.CanonicalJsonReads | src/constellation_node_sdk/transport/hashing.py:37-46 | canonical bytes are the UTF-8 of a text that reads as the value with its keys in ascending order, and no text that reads so is shorter |
| JsonReader.EscapesAreLower | src/constellation_node_sdk/transport/hashing.py:37-46 | control characters without a short escape are written with lower-case hexadecimal digits |
| Canonical.CanonicalJsonUnambiguous | src/constellation_node_sdk/transport/hashing.py:37-46 | equal canonical bytes, UTF-8 included, exactly for the same JSON value, so reordering keys changes no byte and nothing else collides |
| Strings.Utf8Injective | src/constellation_node_sdk/transport/hashing.py:37-46 | encoding a text in UTF-8 loses nothing |
| Strings.Utf8Exactly | src/constellation_node_sdk/transport/hashing.py:37-46 | the bytes of a text are those of its characters in order, each in the shortest form of section 3 of RFC 3629 |
| Hashing.EnvelopeBytesInjective | src/constellation_node_sdk/transport/hashing.py:54-75 | the bytes behind a transport hash determine all nine sections and the payload hash |
| Hashing.HopBytesInjective | src/constellation_node_sdk/transport/hop_trace.py:87-106 | the bytes behind a hop hash determine the transport hash and every covered hop field |
| FieldNames.TransportHashExactly | src/constellation_node_sdk/transport/hashing.py:49-75 | both packet hashes are digests of canonical JSON, and which value stands under which of the ten names |
| FieldNames.HopHashExactly | src/constellation_node_sdk/transport/hop_trace.py:87-106 | a hop hash is the digest of the canonical JSON of sixteen named fields, nulls kept |
| FieldNames.IntegrityExactly | src/constellation_node_sdk/transport/packet.py:48-58 | constructing a packet checks exactly these two hashes, and raises an integrity error otherwise |
| ModelRules.StripExactly | src/constellation_node_sdk/transport/models.py:43-50 | stripping takes the characters to drop off both ends and nothing else |
| ModelRules.NormsExactly | src/constellation_node_sdk/transport/models.py:138-144 | names are trimmed and lowered, compliance tags trimmed and raised |
| ModelRules.UuidExactly | src/constellation_node_sdk/transport/models.py:61-79 | what the text of an id is |
| ModelRules.HeaderExactly | src/constellation_node_sdk/transport/models.py:61-128 | which headers can be constructed and what each field becomes |
| ModelRules.AddressExactly | src/constellation_node_sdk/transport/models.py:131-144 | the same for addresses |
| ModelRules.TenantExactly | src/constellation_node_sdk/transport/tenant.py:10-35 | the same for tenant contexts |
| ModelRules.SecurityExactly | src/constellation_node_sdk/transport/models.py:147-219 | the same for security sections: a signature and its algorithm come together |
| ModelRules.GovernanceExactly | src/constellation_node_sdk/transport/models.py:222-258 | the same for governance sections |
| ModelRules.ProvenanceExactly | src/constellation_node_sdk/transport/provenance.py:6-53 | the same for routing provenance |
| ModelRules.AttachmentExactly | src/constellation_node_sdk/transport/models.py:269-290 | the same for attachments |
| ModelRules.HopExactly | src/constellation_node_sdk/transport/models.py:293-394 | the same for hops, with the rules that relate their fields |
| ModelRules.LinkExactly | src/constellation_node_sdk/transport/models.py:397-447 | the same for delegation links |
| Models.HeaderFixed | src/constellation_node_sdk/transport/models.py:61-128 | a constructed header passes its own validators unchanged |
| Models.SecurityFixed | src/constellation_node_sdk/transport/models.py:147-219 | a constructed security section passes its own validators unchanged |
| Models.HopFixed | src/constellation_node_sdk/transport/models.py:293-394 | a constructed hop passes its own validators unchanged |
| Packets.HashIgnoresTrace | src/constellation_node_sdk/transport/hashing.py:54-75 | changing only the hop trace or the uncovered security fields changes neither hash |
| Packets.TransportHashCommits | src/constellation_node_sdk/transport/packet.py:48-58 | two intact packets with one transport hash agree on every covered section, or a collision is exhibited |
| Packets.FinalizeSound | src/constellation_node_sdk/transport/packet.py:188-244 | finalising never fails, yields an intact packet, changes hashes and signature only, and keeps a signature exactly when asked and still right |
| Packets.DeriveMakesChild | src/constellation_node_sdk/transport/packet.py:90-174 | derive succeeds exactly when the new header and address are valid; the child is intact, unsigned, and inherits tenant, ids, attachments and delegation chain |
| Makers.DeriveExactly | src/constellation_node_sdk/transport/packet.py:90-174 | derive returns a packet exactly when it is the child in every field, arguments before inherited values; otherwise it raises a value error |
| Packets.LineageCheckedExactly | src/constellation_node_sdk/transport/lineage.py:19-28 | the lineage check accepts exactly the next generation of the same root with the parent named, and otherwise raises a validation error |
| Lineages.CreateExactly | src/constellation_node_sdk/transport/packet.py:247-334 | a root packet is made exactly from admissible arguments, and says what it was told |
| Signatures.SignTouchesSignatureOnly | src/constellation_node_sdk/security/signing.py:40-121 | signing an intact packet changes the three signature fields only, and fails exactly for a key that does not sign or a blank key id |
| Signatures.SignVerifies | src/constellation_node_sdk/security/verification.py:62-107 | a freshly signed packet is intact and verifies under the matching key; what verifies at all is in VerifyPacketExactly |
| Signatures.VerifyPacketExactly | src/constellation_node_sdk/security/verification.py:62-107 | a packet verifies exactly when it is signed, its key resolves, and the HMAC is equal or Ed25519 accepts; every other case has its answer or error |
| Signatures.VerifyHopExactly | src/constellation_node_sdk/transport/hop_trace.py:138-170 | the same for a hop over its own hash |
| Signatures.SignatureCommits | src/constellation_node_sdk/security/verification.py:62-107 | an HMAC signature that verifies on another packet means equal content, or a collision is exhibited |
| HopTraces.ValidateHopTrace | src/constellation_node_sdk/transport/hop_trace.py:338-378 | the loop accepts exactly the accepted traces and otherwise raises the first hop's error |
| HopTraces.AcceptedTraceMeans | src/constellation_node_sdk/transport/hop_trace.py:338-378 | accepted means: own packet, linked, correctly hashed, signatures good, and timestamps ordered between any two hops |
| Makers.MakeHopExactly | src/constellation_node_sdk/transport/hop_trace.py:109-221 | a hop is built exactly when it is what was asked for in every field, linked, hashed and signed as given; each failure has its error |
| HopTraces.HashesMeet | src/constellation_node_sdk/transport/hop_trace.py:81-106 | one hop hash at two places means equal positions and equal histories up to there, or a collision |
| HopTraces.LastHashCommits | src/constellation_node_sdk/transport/hop_trace.py:338-378 | if the last hash of one accepted trace occurs in another, the first trace is the beginning of the second on every hashed field, or a collision is exhibited |
| Runs.MadeHopFits | src/constellation_node_sdk/transport/hop_trace.py:173-221 | a built hop carries the packet's id, the last hop hash, the time and its own correct hash |
| Runs.MadeHopVerifies | src/constellation_node_sdk/transport/hop_trace.py:109-170 | a signed hop verifies under the key the resolver knows for its key id |
| Runs.AppendKeeps | src/constellation_node_sdk/transport/packet.py:64-88 | appending a hop built from the packet always succeeds, touches only the trace and keeps it accepted |
| Runs.AppendAccepted | src/constellation_node_sdk/transport/packet.py:64-88 | with_hop takes any hop with the right packet id; the new trace is accepted exactly when the hop continues the old one |
| Runs.SignKeeps | src/constellation_node_sdk/security/signing.py:77-121 | signing leaves both hashes, the trace and every other section as they were |
| Runs.RunKeeps | src/constellation_node_sdk/transport/packet.py:64-88 | every run of appends and signatures under a clock that does not go back leaves an accepted, only longer trace and unchanged hashes |
| Runs.SignAppendCommute | src/constellation_node_sdk/security/signing.py:77-121 | signing and appending a given hop commute, failures included |
| Runs.SignatureSurvivesHops | src/constellation_node_sdk/security/verification.py:62-107 | a signed packet verifies under its signer's key after any number of hops |
| Runs.DeriveHopExactly | src/constellation_node_sdk/transport/packet.py:140-143 | the child's trace is accepted exactly when the given hop has the child's id, no previous hash, the hash made with the child's transport hash, and a good signature if one is looked at |
| Runs.DeriveHopRefused | src/constellation_node_sdk/transport/packet.py:140-143 | a hop built from any packet with another id makes the child's trace refused under every policy |
| Runs.DeriveHopAccepted | src/constellation_node_sdk/transport/packet.py:140-143 | a hop built from the child itself, as derived without one, is accepted |
| Witnesses.EarlyHopRefused | src/constellation_node_sdk/transport/packet.py:140-143 | on every platform a hop built from the parent and given to derive leaves a child that every policy refuses |
| Lineages.NextKeeps | src/constellation_node_sdk/transport/packet.py:64-174 | create, derive, append and sign each keep every packet intact, traced and linked to a parent |
| Lineages.HistoryKeeps | src/constellation_node_sdk/transport/packet.py:64-174 | the same after every run of them, in any order and with any branching |
| Lineages.ParentExists | src/constellation_node_sdk/transport/lineage.py:8-28 | every packet that is not a root has its parent among the packets, and the lineage check accepts the pair; no packet with another id passes, by OnlyParentAccepted |
| Lineages.WalkReachesRoot | src/constellation_node_sdk/transport/lineage.py:8-28 | following parent_id reaches the root in exactly `generation` steps; tenant, ids and attachments are constant and delegation chains prefixes along the way |
| RoundTrip.DecodeEncode | src/constellation_node_sdk/transport/codec.py:8-21 | a valid packet decodes from its encoding to itself, with dropped nulls restored and both hashes rechecked |
| RoundTrip.DecodedIsValid | src/constellation_node_sdk/transport/codec.py:15-21 | whatever decodes is normal in every section and intact |
| RoundTrip.RoundTripExactly | src/constellation_node_sdk/transport/codec.py:8-21 | the round trip returns the packet exactly when it is valid |
| FieldNames.EncodedExactly | src/constellation_node_sdk/transport/codec.py:8-12 | an encoded packet holds every field of every section under its name, and leaves null model fields out |
| DecodeRules.DecodeExactly | src/constellation_node_sdk/transport/codec.py:15-21 | a dict decodes to a packet exactly when its keys are known, its sections decode to those of the packet, and both hashes are right |
| DecodeRules.DecodeErrorExactly | src/constellation_node_sdk/transport/codec.py:15-21 | anything else raises an integrity error if only the hashes are wrong, and a value error otherwise |
| DecodeRules.HeaderDecodesExactly | src/constellation_node_sdk/transport/models.py:61-128 | the keys of a header, their types, and what a missing or null key means |
| DecodeRules.SecurityDecodesExactly | src/constellation_node_sdk/transport/models.py:147-219 | the same for security sections |
| DecodeRules.HopDecodesExactly | src/constellation_node_sdk/transport/models.py:293-394 | the same for hops |
| DecodeRules.LinkDecodesExactly | src/constellation_node_sdk/transport/models.py:397-447 | the same for delegation links |
| DecodeRules.GovernanceDecodesExactly | src/constellation_node_sdk/transport/models.py:222-258 | the same for governance sections |
| DecodeRules.AttachmentDecodesExactly | src/constellation_node_sdk/transport/models.py:269-290 | the same for attachments |
| DecodeRules.AddressDecodesExactly | src/constellation_node_sdk/transport/models.py:131-144 | the same for addresses |
| DecodeRules.TenantDecodesExactly | src/constellation_node_sdk/transport/tenant.py:10-35 | the same for tenant contexts |
| DecodeRules.ProvenanceDecodesExactly | src/constellation_node_sdk/transport/provenance.py:6-53 | the same for routing provenance |
| DecodeRules.LineageDecodesExactly | src/constellation_node_sdk/transport/models.py:261-266 | the same for lineages |
| Deliveries.MadeHopNormal | src/constellation_node_sdk/transport/hop_trace.py:109-221 | a built hop passes its own validators exactly when its signing key id, if any, is not blank |
| RoundTrip.BadHopRefused | src/constellation_node_sdk/transport/codec.py:15-21 | a packet with a hop that the hop's validators refuse does not decode |
| Deliveries.BlankKeyIdRefused | src/constellation_node_sdk/transport/hop_trace.py:109-135 | a hop signed under a blank key id is appended, its trace accepted by every trusting policy, and the packet fails to decode |
| Witnesses.BlankKeyIdHappens | src/constellation_node_sdk/transport/hop_trace.py:109-135 | on every lawful platform there is such a packet |
| Deliveries.HistoryRoundTrips | src/constellation_node_sdk/transport/codec.py:8-21 | every packet of every run of create, derive, append and sign arrives unchanged with an accepted trace |
| Validation.ValidateDelegationChain | src/constellation_node_sdk/security/validation.py:174-196 | the loop accepts exactly the chains that hold |
| Validation.ChainAccepted | src/constellation_node_sdk/security/validation.py:174-196 | comparing neighbours makes every later scope lie in every earlier one; a delegation packet's action is in every scope and its destination is the last delegatee |
| Validation.ValidateTransportPacket | src/constellation_node_sdk/security/validation.py:53-171 | the method with its attachment loop raises the first error in the order of the checks |
| RefusalRules.VerdictExactly | src/constellation_node_sdk/security/validation.py:53-171 | a packet is accepted exactly when it breaks none of twenty-one rules, and otherwise raises what the first broken one raises |
| Validation.AcceptedIsSignedWell | src/constellation_node_sdk/security/validation.py:157-171 | a signed packet that is accepted outside development mode carries a good signature under the resolved key, and so does every signed hop where hops are verified |
| Validation.AcceptedInOneInterval | src/constellation_node_sdk/security/validation.py:85-171 | accepted exactly when the rules that ignore time hold and the time lies in one interval, from created_at less the skew or not_before to the earliest expiry |
| Validation.TimeProfile | src/constellation_node_sdk/security/validation.py:85-171 | a packet accepted at one time is answered at any other by the one error that time alone decides |
| Validation.DerivedReplayExactly | src/constellation_node_sdk/security/validation.py:133-141 | a derived packet is accepted exactly when its replay mode agrees with its packet type, given or inherited, replay is enabled, and the rules that ignore replay hold |
| Validation.ReplayAnswerRefused | src/constellation_node_sdk/security/validation.py:133-141 | whatever is derived from a replay request without clearing the mode, and is not one itself, is refused at every time under every configuration |
| Sizes.SizeAtMostWeight | src/constellation_node_sdk/security/validation.py:26-34 | the size of a packet is at most six bytes for each character of its texts, plus punctuation |
| Sizes.SizeExactly | src/constellation_node_sdk/security/validation.py:26-34 | the size is that of a UTF-8 text that reads as the encoded packet with ascending keys, the shortest such text |
| Validation.CreatedAccepted | src/constellation_node_sdk/security/validation.py:85-171 | whether a root packet is accepted is decided by its arguments, its size, the configuration and the time, exactly |
| Validation.DerivedAccepted | src/constellation_node_sdk/security/validation.py:37-50 | both lineage validators accept every pair that derive makes; which pairs they accept at all is in DerivedExactly |
| Validation.DerivedExactly | src/constellation_node_sdk/security/validation.py:37-50 | a pair is accepted exactly when the tenants agree and the child's lineage is the next one, a changed tenant reported first |
| Validation.OnlyParentAccepted | src/constellation_node_sdk/security/validation.py:37-50 | in every run, what passes as parent of a packet is a version of the one its parent_id names, and of a child every version passes |
| Validation.EveryEdgeAccepted | src/constellation_node_sdk/security/validation.py:37-50 | and every parent and child of every run |
| Execution.SignAnswerExactly | src/constellation_node_sdk/runtime/execution.py:15-28 | an answer is signed exactly when the configured key can sign under a key id that is not blank |
| Execution.AnswerExactly | src/constellation_node_sdk/runtime/execution.py:145-191 | an answer is built exactly when node, time window, error texts and keys admit it, and then it is a valid child of its base |
| AnswerContents.AnswerSays | src/constellation_node_sdk/runtime/execution.py:145-191 | what an answer's payload, its one hop and its signature say, field by field |
| AnswerContents.AnswerVerifies | src/constellation_node_sdk/runtime/execution.py:15-28 | a signed answer verifies for whoever has the matching key under its key id |
| Execution.ExecuteExactly | src/constellation_node_sdk/runtime/execution.py:66-191 | a response exists exactly when the request is valid, its handler returns a dict whose status is not failed, and window and keys admit it |
| AnswerContents.PayloadStatusMeans | src/constellation_node_sdk/runtime/execution.py:154-160 | the status of a response is the handler's own where it names a hop status, and completed otherwise |
| AnswerContents.ProcessingSays | src/constellation_node_sdk/runtime/execution.py:123-130 | the handler is given the request with one execution hop that says processing |
| AnswerContents.IngressRefusals | src/constellation_node_sdk/runtime/inbound_policy.py:6-62 | the ingress policy passes exactly a Gate-resolved packet from Gate for this node on an allowed route |
| Execution.ErrorExactly | src/constellation_node_sdk/runtime/execution.py:194-249 | an error packet exists exactly when node name, window, texts and keys admit it |
| AnswerContents.ErrorPacketSays | src/constellation_node_sdk/runtime/execution.py:194-249 | every error packet says failed, the class name, the message that may be shown and the request's id, in payload and hop |
| AnswerContents.FailureReported | src/constellation_node_sdk/runtime/app.py:84-206 | the error a request fails with, the handler's own included, is raised or described in the error packet |
| AnswerContents.EveryAnswerSigned | src/constellation_node_sdk/runtime/execution.py:15-249 | response or error packet, an answer is signed as the configured keys say |
| Execution.NotBeforeLeavesOneInstant | src/constellation_node_sdk/runtime/execution.py:66-191 | a request with not_before is answered at that very instant or never |
| Refusals.SensitiveRootsRefused | src/constellation_node_sdk/security/validation.py:143-158 | a valid root classified restricted, and one tagged GDPR, that every configuration refuses at every time |
| Refusals.FailedStatusUnanswered | src/constellation_node_sdk/runtime/execution.py:134-191 | a valid, accepted request answered when the handler returns an empty dict and unanswered when its dict says failed |
| Refusals.BlankErrorUnanswered | src/constellation_node_sdk/runtime/execution.py:194-249 | a valid request with no error packet for an exception without a text, while internal errors are exposed |
| Refusals.WaitingRequestUnanswered | src/constellation_node_sdk/runtime/execution.py:66-191 | a valid request answered at its not_before, accepted ever after and never answered again |
| Refusals.ExpiredRequestUnanswered | src/constellation_node_sdk/runtime/execution.py:66-249 | a valid request with neither response nor error packet from its expires_at on |
| Dispatch.PostsExactly | src/constellation_node_sdk/gate_authority/dispatch.py:193-223 | one body is posted, that of the signed packet, exactly when name, URL, authority, signing, validation and budget allow it, and none otherwise, whatever a worker does |
| GateSide.GateAcceptsExactly | src/constellation_node_sdk/gate_authority/dispatch.py:354-384 | what Gate accepts, sent or received: within its limits, timely, regular, signed where asked and well where it has a key, with a chain and a trace that hold |
| GateSide.MaybeSignExactly | src/constellation_node_sdk/gate_authority/dispatch.py:334-352 | Gate adds a signature with its key or nothing without one; a key without id or algorithm is a configuration error |
| GateSide.FailsUnsent | src/constellation_node_sdk/gate_authority/dispatch.py:193-223 | which error is raised when nothing is posted |
| GateSide.FailsSent | src/constellation_node_sdk/gate_authority/dispatch.py:223-239 | which error is raised after a post |
| Dispatch.NothingSentUnauthored | src/constellation_node_sdk/gate_authority/dispatch.py:193-223 | what is posted decodes to the given packet up to its signature, authored for the target and valid at the time |
| Dispatch.AuthorityMeans | src/constellation_node_sdk/gate_authority/dispatch.py:290-321 | authored means sourced from Gate, addressed to the target, answered to Gate, resolved by Gate, external ingress |
| Dispatch.NoProblemsMeansAnswer | src/constellation_node_sdk/gate_authority/dispatch.py:428-474 | the eight checks report exactly the relationships that are wrong |
| Dispatch.ResponseProblems | src/constellation_node_sdk/gate_authority/dispatch.py:444-468 | the list that is built is empty exactly for an answer |
| Dispatch.AcceptedIsAnswer | src/constellation_node_sdk/gate_authority/dispatch.py:142-239 | whatever a worker sends, what Gate returns is valid, validated, and answers the packet that was sent |
| Dispatch.SignedHopsExactly | src/constellation_node_sdk/gate_authority/dispatch.py:354-384 | with hop verification on a packet is accepted exactly when it is with it off and no hop is signed |
| Dispatch.SignedHopsRefused | src/constellation_node_sdk/gate_authority/dispatch.py:354-384 | so one signed hop gets a packet refused |
| Witnesses.SignedHopDividesGate | src/constellation_node_sdk/gate_authority/dispatch.py:354-384 | a valid packet with a correctly signed hop that Gate accepts with hop verification off and refuses with it on |
| Dispatch.EveryAnswerDelivers | src/constellation_node_sdk/runtime/app.py:84-206 | whatever a node answers an authored request with, response or error packet, is valid, passes Gate's check and has an accepted trace |
| Dispatch.ExchangeCompletes | src/constellation_node_sdk/gate_authority/dispatch.py:142-239 | over the wire both ways Gate gets the very packet the worker built, and only transport validation can still refuse it |
| Dispatch.AnswerReceived | src/constellation_node_sdk/gate_authority/dispatch.py:370-384 | of an answer to a request Gate accepted, transport validation depends on size, replay mode, signature and time alone |
| Dispatch.ExchangeSucceedsExactly | src/constellation_node_sdk/gate_authority/dispatch.py:142-239 | the exchange succeeds exactly when the worker has an answer and it is receivable, and returns that answer |
| GateSide.GateKeysExactly | src/constellation_node_sdk/gate_authority/config.py:66-77 | Gate verifies with the key its table has for the key id, and otherwise with its own for its own id |
| GateSide.SignedExchangeSucceeds | src/constellation_node_sdk/gate_authority/dispatch.py:142-239 | an exchange whose answer is signed under a key id that Gate knows the matching key for succeeds, size, replay mode and time permitting |
| GateSide.VerifiedAnswersAreSigned | src/constellation_node_sdk/gate_authority/dispatch.py:370-384 | while responses are verified, whatever a worker sends, only packets signed well under a known key are returned |
| Dispatch.ReplayNeverAnswered | src/constellation_node_sdk/gate_authority/dispatch.py:142-239 | sending a replay_mode request to any worker built with the SDK never succeeds |
| Exchanges.RoutedMayBePosted | src/constellation_node_sdk/gate_authority/dispatch.py:193-223 | a valid child, request or replay request, that meets every condition for being posted |
| Exchanges.ReplayIsLost | src/constellation_node_sdk/gate_authority/dispatch.py:142-239 | a replay request that is posted and comes to nothing whatever worker answers it |
| Exchanges.ExchangeHappens | src/constellation_node_sdk/gate_authority/dispatch.py:142-239 | a request that is posted, answered by a worker and returned to Gate as the worker built it |
| TraceRules.TraceparentExactly | src/constellation_node_sdk/trace_context.py:217-224 | the grammar of a traceparent, all-zero ids excluded |
| TraceRules.MemberExactly | src/constellation_node_sdk/trace_context.py:246-268 | the grammar of a tracestate member and its key |
| TraceRules.SplitExactly | src/constellation_node_sdk/trace_context.py:246-247 | splitting at commas gives the only parts without a comma whose join is the text |
| TraceRules.KeptExactly | src/constellation_node_sdk/trace_context.py:247-252 | blank parts are dropped and the others stripped of spaces and tabs, in order |
| TraceRules.NormalizeExactly | src/constellation_node_sdk/trace_context.py:227-278 | the whole normaliser: 512 characters, 32 members of the grammar with distinct keys, blank parts where allowed |
| Tracestate.ScanMeans | src/constellation_node_sdk/trace_context.py:244-268 | the scan keeps the members in order and fails exactly for a forbidden empty member or what is not at most 32 well-formed members with distinct keys |
| Tracestate.NormalizeOfJoin | src/constellation_node_sdk/trace_context.py:227-278 | normalising a list of values and normalising their join give the same result or failure |
| Tracestate.KeptFits | src/constellation_node_sdk/trace_context.py:275-277 | the normal form is never longer than the input, so the last length check never fires |
| Tracestate.NormalizeMeans | src/constellation_node_sdk/trace_context.py:227-278 | exactly the acceptable inputs have a normal form, the join of the kept members |
| Tracestate.NormalizeYieldsNormal | src/constellation_node_sdk/trace_context.py:227-278 | every result is in normal form and splits into the kept members |
| Tracestate.NormalExactly | src/constellation_node_sdk/trace_context.py:227-278 | a text comes back unchanged, under both settings, exactly when it is in normal form |
| TraceContexts.NormalizeTracestate | src/constellation_node_sdk/trace_context.py:227-278 | the loops compute the specified normal form or fail with it |
| TraceContexts.ReadHeaderValues | src/constellation_node_sdk/trace_context.py:183-200 | the loop yields the strings of a bounded sequence or fails |
| TraceContexts.CollectTracestateValues | src/constellation_node_sdk/trace_context.py:203-214 | the loops collect at most 32 values of bounded length |
| TraceRules.CollectExactly | src/constellation_node_sdk/trace_context.py:203-214 | at most 32 strings of 512 characters are collected, and fewer than 32 before the last field |
| TraceRules.ReceivedExactly | src/constellation_node_sdk/trace_context.py:127-140 | what a received tracestate counts as, or that it counts as none |
| TraceRules.ContextExactly | src/constellation_node_sdk/trace_context.py:60-79 | which texts a context is constructed from and what it then holds |
| TraceContexts.ContextFixed | src/constellation_node_sdk/trace_context.py:60-79 | constructing a context again returns it exactly when it is valid |
| TraceContexts.ContextsAreValid | src/constellation_node_sdk/trace_context.py:60-79 | every constructed context is valid |
| TraceContexts.ParseTraceContext | src/constellation_node_sdk/trace_context.py:86-142 | the bounded loop over the fields computes the specified parse; 64 fields or more fail |
| TraceRules.ParseExactly | src/constellation_node_sdk/trace_context.py:86-142 | parsing finds nothing, a context, or fails, each exactly when the fewer than 64 fields say so |
| TraceContexts.TracestateNeverFails | src/constellation_node_sdk/trace_context.py:86-142 | with one well-formed traceparent and at most 63 fields no tracestate makes parsing fail |
| TraceContexts.InjectTraceContext | src/constellation_node_sdk/trace_context.py:145-166 | the loop computes the specified injection |
| TraceRules.InjectExactly | src/constellation_node_sdk/trace_context.py:145-166 | injecting fails or drops the fields of three names, keeps every other in order and puts the context at the end |
| TraceContexts.InjectedFields | src/constellation_node_sdk/trace_context.py:145-166 | the result holds the given context once and no baggage, whatever the case of the names before |
| TraceContexts.ParseInject | src/constellation_node_sdk/trace_context.py:86-180 | parsing an injection gives the context back exactly when it has at most 63 fields |
| CapabilityCache.GateCapabilityClient.Invalidate | src/constellation_node_sdk/gate/capability_client.py:45-47 | both slots are emptied and no entry object changes |
| CapabilityCache.GateCapabilityClient.Begin | src/constellation_node_sdk/gate/capability_client.py:52-66 | a call hits or asks as specified and holds the entry it saw; a forced one asks, and without a tag |
| CapabilityCache.GateCapabilityClient.GetCapability | src/constellation_node_sdk/gate/capability_client.py:94-112 | the same for one action, refusing exactly the blank names |
| CapabilityCache.GateCapabilityClient.Finish | src/constellation_node_sdk/gate/capability_client.py:68-92 | the answer extends or replaces exactly the specified entry, also when other calls came between |
| CacheHits.ForcedCallAsks | src/constellation_node_sdk/gate/capability_client.py:49-112 | a forced call is never answered from the cache and sends no tag, whatever happens while it is under way |
| CacheHits.ForcedCallIsCurrent | src/constellation_node_sdk/gate/capability_client.py:49-142 | what a forced call returns, the server held at the time it began or later |
| CacheHits.HitsExactly | src/constellation_node_sdk/gate/capability_client.py:49-142 | an unforced call hits exactly when a body for its target was stored, not invalidated since, and confirmed less than a TTL ago by its own call or a 304; it returns that body |
| CacheRuns.RevalidatedSeen | src/constellation_node_sdk/gate/capability_client.py:114-116 | a 304 means the server held that entry's representation after the call began |
| CacheRuns.CapabilityIsFresh | src/constellation_node_sdk/gate/capability_client.py:94-142 | under every interleaving what get_capability returns was the server's representation later than the call's start less the TTL |
| CacheRuns.ListingIsFresh | src/constellation_node_sdk/gate/capability_client.py:49-92 | the same for list_capabilities in every run in which each 304 for the list finds an entry with the tag its call asked about |
| CacheRuns.ListRevalidatedExactly | src/constellation_node_sdk/gate/capability_client.py:68-70 | what a 304 for the list returns is what the server answered about exactly when the entry in the slot carries the tag that was asked about |
| CacheRuns.SequentialListingIsFresh | src/constellation_node_sdk/gate/capability_client.py:49-92 | in particular when list calls do not overlap |
| CacheRuns.OverlappingListsGoStale | src/constellation_node_sdk/gate/capability_client.py:68-70 | a run in which a 304 finds an entry with another tag and returns a list held last before the bound |
| CacheRuns.RunsAreConsistent | src/constellation_node_sdk/gate/capability_client.py:45-142 | in every run slots and calls refer to existing entries only |
| Participation.NodeParticipation.SetStatus | src/constellation_node_sdk/runtime/participation.py:195-199 | the status is replaced and on_change called exactly when it differs |
| Participation.NodeParticipation.BeginRegister | src/constellation_node_sdk/runtime/participation.py:208-218 | a disabled node begins nothing; otherwise the state becomes registering unless active |
| Participation.NodeParticipation.FinishRegister | src/constellation_node_sdk/runtime/participation.py:244-277 | the outcome is recorded on the status as it is by then |
| Participation.DisabledExactly | src/constellation_node_sdk/runtime/participation.py:96-138 | a node starts disabled exactly when told to or when its URL is nothing but slashes between spaces |
| Participation.ReadyExactly | src/constellation_node_sdk/runtime/participation.py:79-82 | an enabled node with a URL is ready exactly when the attempt that finished last was accepted; a disabled one always |
| Participation.DisabledStays | src/constellation_node_sdk/runtime/participation.py:208-212 | a disabled node stays disabled through every run |
| Participation.StatusTellsHistory | src/constellation_node_sdk/runtime/participation.py:208-277 | after every interleaving the whole status is determined by the finished attempts, in the order they finished |
| Participation.StatusMeans | src/constellation_node_sdk/runtime/participation.py:208-277 | active exactly when the last finished attempt was accepted; attempts counts them; consecutive_failures is the trailing run of failures |
| Participation.NotifiedOfChanges | src/constellation_node_sdk/runtime/participation.py:195-199 | on_change gets every new status once, in order, and nothing else |
| Readiness.NodeApp.ApplyReadiness | src/constellation_node_sdk/runtime/app.py:248-252 | readiness becomes the conjunction of lifecycle and participation |
| Readiness.NodeApp.Launch | src/constellation_node_sdk/runtime/app.py:254-260 | the lifecycle is marked down and readiness withdrawn |
| Readiness.NodeApp.Start | src/constellation_node_sdk/runtime/app.py:262-267 | the lifecycle is marked up and participation begins |
| Readiness.NodeApp.Finish | src/constellation_node_sdk/runtime/app.py:283-284 | a finished attempt reaches readiness through the callback |
| Readiness.NodeApp.Shutdown | src/constellation_node_sdk/runtime/app.py:269-275 | the lifecycle is marked down and readiness withdrawn |
| Readiness.StepHonest | src/constellation_node_sdk/runtime/app.py:248-296 | every step keeps readiness honest |
| Readiness.ReadinessHolds | src/constellation_node_sdk/runtime/app.py:248-296 | at every suspension point of every run ready implies started and participating; while serving the two sides are equal |
| Orchestration.StepExecutor.ExecuteStep | src/constellation_node_sdk/orchestrator/step_executor.py:39-77 | the loop sends, sleeps and ends as the policy and the replies decide |
| Orchestration.ResultIsFirstSuccess | src/constellation_node_sdk/orchestrator/step_executor.py:57-87 | the result is the first successful answer, and there is one exactly when the step succeeds |
| Orchestration.SuccessExactly | src/constellation_node_sdk/orchestrator/step_executor.py:80-87 | which replies count as success and what error the others are |
| Orchestration.RetriesExactly | src/constellation_node_sdk/orchestrator/step_executor.py:57-77 | every attempt but the last failed in a way the policy retries, and a failed step ends because attempts or the policy ran out |
| Orchestration.StepPacketPasses | src/constellation_node_sdk/orchestrator/packet_builder.py:9-49 | a step packet is a child addressed to Gate, and passes the outbound policy exactly when Gate is named gate and the node is not client |
| Orchestration.StepPacketExactly | src/constellation_node_sdk/orchestrator/packet_builder.py:9-49 | a step packet is built exactly from names that are not blank, and what it is field by field |
| Orchestration.OutboundExactly | src/constellation_node_sdk/gate/policy.py:8-72 | which packets the outbound policy passes |
| Orchestration.StepSendsChildren | src/constellation_node_sdk/gate/policy.py:8-72 | everything a step sends is a distinct direct child of the one parent that passes the outbound policy |
| Orchestration.DelaysGrow | src/constellation_node_sdk/orchestrator/retry.py:34-44 | delays, where the power does not overflow, never decrease and never exceed the cap or the uncapped delay |
| Orchestration.DelayExactly | src/constellation_node_sdk/orchestrator/retry.py:34-44 | a delay is the cap or the term of the sequence that starts at the initial delay with ratio multiplier, whichever is smaller |
| Orchestration.StepOverflowsExactly | src/constellation_node_sdk/orchestrator/step_executor.py:57-77 | a step ends with an overflow exactly when the last packet it sent failed in a way that was to be retried and the power behind the next delay is out of range |
| Orchestration.OverflowReached | src/constellation_node_sdk/orchestrator/step_executor.py:57-77 | whenever that can happen there is a run of the step that ends so |
| Orchestration.FailingStepOverflows | src/constellation_node_sdk/orchestrator/step_executor.py:57-77 | a step whose attempts all fail in a way that is retried ends with an overflow exactly when the last power its policy reaches is out of range, and otherwise after max_attempts packets |
| Refusals.OverflowHappens | src/constellation_node_sdk/orchestrator/retry.py:43-44 | a policy with a cap of one second and a child of a valid parent for each attempt, whose step sends three packets, sleeps two seconds and can only end with an overflow |
| Orchestration.NoStepOverflows | src/constellation_node_sdk/orchestrator/step_executor.py:57-77 | a policy whose last power is within range never ends a step with an overflow |
| Orchestration.StepIsBounded | src/constellation_node_sdk/orchestrator/step_executor.py:39-77 | at most max_attempts packets, ascending sleeps decided by how many were sent, and total sleep within the cap and the geometric sum for that many |
| Registration.RegisterNode | src/constellation_node_sdk/gate/registration.py:270-293 | k posts with k at most retries, 2^(k-1) - 1 seconds of sleep, and true exactly when post k is the first 200 |

## Left out

- ListingIsFresh: runs in which a 304 finds a list stored under another tag are excluded, because the property can fail there, as `OverlappingListsGoStale` shows; `include_protected` is fixed, because the one list slot ignores it.
- DelaysGrow: delays are real numbers, so rounding of floats is not modelled; overflow of the power is.
- HistoryKeeps: derivations in a run pass no hop argument, because the source does not check that hop; `DeriveHopRefused` says what becomes of one.
- Decode: pydantic's lax conversions (numbers written as strings, times as numbers, a list given as one string) are refused here; the encoder never writes them.
- Decode: all defaults of one packet share one fresh id and one clock reading, which no encoded packet needs.
- ExecutePacket: a handler that returns a packet itself is not modelled; the runtime does not constrain that packet.
- CreateExactly: the tenant is a constructed tenant context; a tenant given as text or dict is converted before.
- Send: the endpoint URL and the HTTP exchange are parameters; the network deadline is only checked to be positive.
- AcceptedInOneInterval: attachment URI rules are a parameter, because they rest on URL and IP address parsing that is outside the repository.
- Platform: SHA-256, HMAC and Ed25519 themselves and byte coercion; a key is the bytes that result, and loading one succeeds or raises as the platform says.
- VerifyText: loading a key raises one of the modelled errors; cryptography's UnsupportedAlgorithm has no constructor of its own.
- Canonical JSON of values that are not JSON-native (floats, datetimes, bytes, keys that are not strings) and of lone surrogates.
- Case folding beyond ASCII letters in `strip().lower()` and `strip().upper()`.
- Conversion of priorities, tags, scopes and PII fields from other types before their validators run.
- The relay route, route-specific settings, HTTP status mapping, metrics and logging of the runtime.
- The pooled HTTP client and its lifecycle in the dispatch transport.
- `create_root_trace_context`: randomness.
- The background loop's timer: re-registrations are attempts that may begin at any moment.
- Environment reading, configuration models, preflight, node specs, admission receipts, payload merging and the release scripts.
- The deadline arithmetic and admission calls of the Gate client.
