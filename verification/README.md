# Token vault: a verified model

The service replaces card numbers (PANs) and security codes (CVVs) by tokens. A *tokenizer* keeps PANs encrypted in SQL
tables and CVVs encrypted in Redis for a limited time; a *proxy* walks a JSON payload, reveals the tokens in it and sends
the payload on. This project models the vault as a machine of atomic steps shared by any number of requests, the walk over
payloads, and the encodings below both, and proves what holds over every run.

## How the model is built

Two stores share one interface of calls (`Stores`). The *sealed* store is what the service runs on: rows with blind indexes
and sealed PANs, and Redis strings that hold framed ciphertexts under colon-joined keys. The *plain* store is what it stands
for: PANs and CVVs in maps keyed by tenant and token. `Exec` runs one SQL statement or one Redis command on either, and lets
it fail before or after it took effect.

A request (`Requests`) waits at a program counter for its next call; `Resume` is the code between two calls. A run
(`Machine`) is a sequence of labels: a request arrives, a request makes its next call, or time passes. Requests interleave
freely and every call of every request may fail. A world also remembers which request generated which id and which requests
were in progress together; no step depends on that. To the tokenizer, a forward request is the detokenize requests it sends, so
what holds for all detokenize requests of a run holds for those too.

`Refinement` and `Lockstep` show that the sealed and the plain store go through the same runs with the same replies.
`Invariants`, `Guarantees`, `VaultRows`, `Deactivation`, `Invalidation` and `Isolation` prove the properties over runs.
`Walks` is about the reveal walk with any oracle in the place of the tokenizer; `Reveal`, `RevealRuns` and `Consumption` put
the tokenizer there, at any point of any run, with every call and the network failing as they like or with other requests in
between. `Outcomes` and `TokenizeOutcomes` spell out every operation served alone, on every store and for every combination
of failing calls: the reply, code by code, and the store left, row by row and key by key, in terms of these
and not of the step programs; `Lookups` and `RoundTrip` connect operations at any point of a run. `Overlaps` and `Shortfalls` show what
the code does not keep and when it does, and `Witnesses` reaches the states they start from.

`Storage`, `Handlers`, `Service`, `Payloads`, `Proxy` and `Forwarding` are the imperative side: the repositories, the handlers
and the proxy as classes whose methods update the tables, the keyspace, byte buffers and payload objects in place. Each
handler method is proved to leave the store, and to reply, as the step program does when the request runs alone, so the
properties above, and the outcomes first of all, are about what these methods do.

| File | Content |
|---|---|
| `Card`, `Identifiers`, `Bytes`, `Envelope` | Luhn and CVV format; ids, keys and preimages; buffers and wiping; sealed records |
| `Tables`, `Stores`, `Refinement` | SQL and Redis as functions; both stores; one call agrees on both |
| `Requests`, `Machine`, `Lockstep` | Request programs; runs; runs agree on both stores |
| `Invariants`, `Guarantees`, `VaultRows`, `Deactivation`, `Invalidation`, `Isolation` | What every run keeps |
| `Json`, `Walks`, `Reveal`, `RevealRuns`, `Consumption` | Payloads and the reveal walk |
| `Outcomes`, `TokenizeOutcomes` | Every operation served alone, on any store and with any failures |
| `Lookups`, `RoundTrip` | Detokenize and status agree; tokenize and reveal |
| `Storage`, `Handlers`, `Service` | Repositories and tokenizer handlers as classes |
| `Payloads`, `Proxy`, `Forwarding` | Payloads in memory, the revealer and the forward handler as classes |
| `Overlaps`, `Shortfalls`, `Witnesses` | Runs that break what the design documents promise, and that their starting states exist |

## Assumptions

AES-256-GCM (NIST SP 800-38D sections 7.1 and 7.2), HMAC-SHA-256 (RFC 2104 section 2) and the key service are a value of
type `Crypto`. What is assumed of it is `Envelope.Lawful`: opening undoes sealing, a sealed text is 16 bytes longer than the
text, unwrapping undoes wrapping under any master key and a wrapped key names the master key, and no two of the texts that
are hashed have one HMAC. `ToyIsLawful` shows that these assumptions can be met together. Ids come from 20 random bytes and
are never drawn twice; key ARNs are never handed out twice.

Every char stands for one byte, as in a Go string. A CVV lifetime that is not positive is sent to Redis as no lifetime at
all, so the keys stay; config/config.go:23 accepts such a setting. No result assumes a positive lifetime, and those it matters
to say what changes: `CVVsAreSingleUse`, `StatusAgreesWithDetokenize`, `TokenizeThenReveal`.

## Where the code and the documents disagree

The model follows the code.

* The task list of the first feature (T027) promises one transaction for the token row and the vault row. The code sends two
  statements. `VaultRowIffInsertSent` and `VaultRowOrReason` say exactly when the vault row is there, and `OrphanNeverHeals`
  that a token left without one stays so.
* A request with a bad CVV is refused after its PAN was looked up. `BadCVVRefusedAfterStoring`: it leaves the store alone
  exactly when it does not bring a new card.
* Requirement FR-010 of the CVV-token feature promises that tokenizing a card again invalidates its previous CVV token. The
  three owner commands are not atomic: `AtMostOneLiveCVV` and `StaleCVVMeansOverlap` say when the promise holds,
  `OverlapCanLeaveTwo` that overlapping requests can break it from every state in which the card has a token, and
  `LostOwnerLeavesTwo` that without overlap one failed owner command can.
* The clarifications of that feature let a consumed CVV token reveal as empty, its acceptance scenarios demand that the
  payload is rejected. The code rejects it: `RevealIsDetermined`, `RevealUsesUp`.
* Without a positive lifetime a CVV token never reads as active, although it can be revealed: `StatusAgreesWithDetokenize`.
* Deactivating a PAN token leaves its CVV token alive: `DeactivateLeavesCVVs`.

## Model

| member | source | states |
|---|---|---|
| Card.ValidatePAN | internal/handler/tokenize.go:247-269 | the right-to-left loop accepts exactly the 13 to 19 digit strings whose recursive weighted sum is a multiple of ten |
| Card.ValidateCVV | internal/handler/tokenize.go:271-282 | the loop accepts exactly the strings of three or four digits |
| Card.PANFormat | internal/handler/tokenize.go:247-269 | a card number is 13 to 19 characters coded 48 to 57 whose Luhn sum is a multiple of ten |
| Card.CVVFormat | internal/handler/tokenize.go:271-282 | a security code is three or four characters coded 48 to 57 |
| Card.LuhnByPairs | internal/handler/tokenize.go:252-267 | two more digits add the last one and the two decimal digits of twice the one before it, which with the sums of no digit and of one fixes every sum |
| Card.SumAfterChange | internal/handler/tokenize.go:252-267 | replacing one digit moves the sum by the difference of the two weights |
| Card.SingleDigitChangeRejected | internal/handler/tokenize.go:247-269 | no single wrong digit goes unnoticed |
| Card.AdjacentSwap | internal/handler/tokenize.go:247-269 | swapping two neighbours goes unnoticed exactly when they are equal or are a 0 and a 9 |
| Card.CheckDigitUnique | internal/handler/tokenize.go:247-269 | every payload of 12 to 18 digits has one valid check digit and only one |
| Bytes.ClearBytes | internal/handler/tokenize.go:292-296 | the whole buffer is zero afterwards |
| Bytes.ClearSlice | internal/handler/detokenize.go:153-155 | wiping a slice that shares storage zeroes that part and no other |
| Identifiers.TenantIDPattern | internal/auth/tenant.go:17 | tenant ids are exactly the texts of 1 to 64 letters, digits, underscores and dashes, by character code |
| Identifiers.TokenPattern | internal/proxy/revealer.go:13 | token-shaped texts are exactly "tok_" followed by 32 or more letters and digits |
| Identifiers.GeneratedIDsAreTokenShaped | internal/handler/tokenize.go:284-290 | every generated id has the shape the proxy looks for, 44 characters and lower-case hexadecimal digits |
| Identifiers.TokenIDSpellsBytes | internal/handler/tokenize.go:284-290 | an id is "tok_" and two hexadecimal digits for each random byte, the high half first |
| Identifiers.TokenIDFromInjective | internal/handler/tokenize.go:284-290 | different random bytes give different ids |
| Identifiers.DigitsAreNotTokenShaped | internal/proxy/revealer.go:13 | a stored card value is never taken for a token |
| Identifiers.ValidTenantIDsAreColonFree | internal/auth/tenant.go:17 | the gate's pattern excludes the separator of the keys |
| Identifiers.CvvTokenKeyInjective | internal/redis/cvv_store.go:46-48 | for colon-free tenants and any ids, equal CVV-token keys mean equal tenant and id |
| Identifiers.CvvOwnerKeyInjective | internal/redis/cvv_store.go:50-52 | the same for owner keys |
| Identifiers.CvvKeyInjective | internal/redis/cvv_store.go:19-21 | the same for the older CVV keys |
| Identifiers.KeyFamiliesDisjoint | internal/redis/cvv_store.go:19-52 | keys of different families differ whatever tenant and id are |
| Identifiers.BlindPreimageInjective | internal/crypto/hmac.go:14-18 | the hashed text determines tenant and PAN |
| Identifiers.KeysCollideWithoutGate | internal/redis/cvv_store.go:19-52 | with a colon in the tenant id two tenants can share a key of every family and a hashed text; the gate refuses such ids |
| Tables.CharactersCount | migrations/004_create_tenants.up.sql:4-6 | characters are counted part by part, one for each ASCII byte and one for each leading byte with its continuation bytes |
| Envelope.ToyIsLawful | internal/handler/tokenize.go:200-212 | the assumptions on encryption, HMAC and key service are consistent |
| Envelope.BlindIndexInjective | internal/crypto/hmac.go:14-18 | blind indexes are equal exactly for the same tenant and PAN |
| Envelope.CVVRoundTrip | internal/handler/tokenize.go:214-234 | the stored buffer is 32 bytes of key, 12 of IV and the sealed text; parsing it gives the CVV back, and that is never the "missing" value |
| Envelope.ShortBuffersReadAsMissing | internal/handler/detokenize.go:149-159 | a buffer with no room for key and IV reads as missing |
| Envelope.OpenCVVInPlace | internal/handler/detokenize.go:143-170 | reads the CVV out of the buffer although it wipes the key slice inside it, and leaves the rest of the buffer |
| Envelope.SplitTag | internal/handler/tokenize.go:130-132 | ciphertext and tag joined again are the sealed text, and the tag has 16 bytes |
| Envelope.PANRoundTrip | internal/handler/detokenize.go:122-141 | the record is the PAN sealed under the data key, cut before its last 16 bytes, and that key wrapped under the master key named; unwrapping the key and rejoining the tag opens it |
| Refinement.InsertTokenAgrees | internal/repository/token_repo.go:22-32 | with unique blind indexes the insert succeeds or fails alike on both stores and they still match |
| Refinement.CVVCallAgrees | internal/redis/cvv_store.go:54-83 | setting, taking, probing and deleting a key touches the one CVV entry of that tenant and token |
| Refinement.OwnerCallAgrees | internal/redis/cvv_store.go:85-98 | the same for the owner entries |
| Refinement.CallAgrees | internal/repository/token_repo.go:22-81 | every call gives the same answer on both stores and leaves them matching |
| Requests.ResumeDescends | internal/handler/tokenize.go:97-183 | every step brings a request closer to its reply; no request makes more than nine calls |
| Lockstep.SealedRefinesPlain | internal/handler/tokenize.go:86-188 | both stores have the same runs, and at every point the same requests, replies and contents |
| Lockstep.ServeAgrees | internal/handler/detokenize.go:67-119 | a request served alone gets the same reply from both stores and leaves them matching |
| Invariants.NextGrows | internal/repository/token_repo.go:48-81 | one step of any request loses no row, changes no row's tenant, PAN or key, reactivates nothing and stores no CVV token again |
| Invariants.InvAfterNext | internal/handler/tokenize.go:97-188 | one step of any request keeps every invariant of rows, keys and waiting requests |
| Invariants.InvAfterRun | internal/handler/tokenize.go:97-188 | so does every run |
| Guarantees.TokensMeanValidFields | internal/handler/tokenize.go:66-167 | in every run, only a tokenize request with a PAN or a CVV, and with no bad one, ends with tokens |
| Guarantees.CreatedTenantMeansRow | internal/handler/tenant.go:57-93 | in every run, a tenant answered as created has a row with the name asked for and the ARN answered, from then on |
| Guarantees.StatusMeansRow | internal/handler/token_manage.go:66-102 | in every run, a PAN status is that of a token row of the tenant asking, which was active then if it is now |
| Guarantees.OneTokenPerCard | internal/handler/tokenize.go:97-149 | over any run, replies carry the same token exactly for the same tenant and PAN, and at most one of them is a 201 |
| Guarantees.EchoIsExact | internal/handler/tokenize.go:152-197 | a successful reply is the body with "pan" and "cvv" replaced by generated tokens of the right kind and nothing else changed |
| Guarantees.CreatedMeansStored | internal/handler/tokenize.go:143-149 | a token given out has its row, a 201 means the PAN is stored, and what is stored opens to the PAN |
| Guarantees.NeverAWrongValue | internal/handler/detokenize.go:74-117 | a revealed value is what the request that generated the token was given under the same tenant, or empty for a PAN token |
| Guarantees.EmptyMeansNoVaultRow | internal/handler/detokenize.go:122-126 | the value read for a PAN token is empty exactly when its vault row is not there at that moment |
| Guarantees.EmptyReplyMeansNoVaultRow | internal/handler/detokenize.go:80-99 | a 200 reply with the empty value was read at an earlier point of the run at which the vault row was not there |
| Guarantees.CVVsAreSingleUse | internal/redis/cvv_store.go:62-73 | a CVV token is revealed at most once, before its time is up if it has one, and its key never comes back |
| VaultRows.VaultRowOrReason | internal/handler/tokenize.go:119-149 | in every run, a token row without a vault row means that its own request still waits to insert it or ended with 500, and while it waits the vault row is not there |
| VaultRows.OrphanNeverHeals | internal/handler/tokenize.go:125-146 | a token without a vault row that no request is about to insert never gets one |
| Deactivation.DeactivationIsPermanent | internal/repository/token_repo.go:48-57 | a deactivated token is inactive in every continuation, and whoever tokenizes its PAN again gets that token |
| Deactivation.DeactivatedMeansOff | internal/handler/token_manage.go:134-147 | in every run, whoever is told that a token is deactivated named a token of its own tenant, and its row is inactive |
| Deactivation.DeactivatedMeansRefused | internal/handler/token_manage.go:144-147 | once that was answered, no detokenize request that looks the token up later gets a value |
| Deactivation.OffOnlyByRequest | internal/repository/token_repo.go:48-57 | in every run, an inactive token was asked to be deactivated by a request of its tenant, and an inactive tenant by a request naming it |
| Deactivation.LateDetokenizeIsRefused | internal/handler/detokenize.go:67-78 | a detokenize request that looks the token up after the deactivation gets no value |
| Deactivation.LateRequestsChangeNothing | internal/auth/tenant.go:38-50 | requests whose tenant lookup follows the tenant's deactivation are refused and change nothing |
| Deactivation.TenantDeactivatedMeansOff | internal/handler/tenant.go:159-172 | in every run, a tenant answered as deactivated exists and is inactive |
| Deactivation.TenantDeactivatedMeansClosed | internal/handler/tenant.go:169-172 | once that was answered, the tenant's requests whose gate comes later are refused and change nothing |
| Deactivation.KeysArePerTenant | internal/handler/tenant.go:67-93 | no two tenants share a key ARN, and every vault row carries its own tenant, that tenant's ARN and a data key wrapped under it |
| Invalidation.DeadCVVsStayDead | internal/redis/cvv_store.go:54-73 | a generated CVV token that is not alive, whether revealed, taken with the reply lost, deleted or expired, never becomes alive again |
| Invalidation.StaleCVVMeansOverlap | internal/redis/cvv_store.go:94-105 | while Redis does not fail, a finished request's live CVV token that is not the owner means that a request for the same card overlapped |
| Invalidation.AtMostOneLiveCVV | internal/handler/tokenize.go:175-183 | requests for one card that did not overlap leave at most one live CVV token between them, while Redis does not fail |
| Isolation.OwnCall | internal/repository/vault_repo.go:33-48 | a tenant's call gets the same answer from stores that look alike to it |
| Isolation.OthersSeeNothing | internal/repository/token_repo.go:34-57 | the calls of one tenant leave every other tenant's part of the store as it is |
| Isolation.Unwind | internal/auth/tenant.go:38-52 | one step of a run keeps two worlds alike for a tenant, whether the step is kept or deleted |
| Isolation.TenantsDoNotInterfere | internal/auth/tenant.go:38-52 | deleting all steps of other tenants from a run leaves every reply of the tenant as it was |
| Outcomes.GateRefuses | internal/auth/tenant.go:27-50 | a missing, malformed, unknown or inactive tenant and a failed tenant lookup are refused with 400, 400, 404, 403 and 500, with nothing changed |
| Outcomes.LookupFails | internal/handler/detokenize.go:67-72 | when the token lookup fails, detokenize, status and deactivate end with 500 and change nothing |
| Outcomes.DetokenizePANOutcome | internal/handler/detokenize.go:74-104 | for every store and fault: an inactive token gets a 404, an active one reveals what its vault row opens to, and its last use is noted exactly when that statement is sent |
| Outcomes.DetokenizeCVVOutcome | internal/handler/detokenize.go:106-170 | for every store and fault: a live key whose record opens is revealed if the command succeeds, anything else is a 404, and a live key is gone exactly when the command was sent |
| Outcomes.StatusOutcome | internal/handler/token_manage.go:66-120 | a PAN token's status is its row's, with its last use; another token's is that of a CVV exactly when TTL gives a time; otherwise 404; nothing changes |
| Outcomes.DeactivateOutcome | internal/handler/token_manage.go:134-163 | the update turns off exactly this token's row whenever it is sent, and is reported when it succeeds; a token of another tenant is not found |
| Outcomes.CreateTenantRefuses | internal/handler/tenant.go:58-76 | a malformed id, an empty name, a failed lookup and an existing id get 400, 400, 500 and 409, with the store unchanged |
| Outcomes.InsertTenantStep | internal/repository/tenant_repo.go:21-31 | the insert fails for an id taken since the lookup and for a text too long, ends with 500 and writes nothing |
| Outcomes.CreateTenantOutcome | internal/handler/tenant.go:78-97 | a new tenant gets an active row with its name and new key ARN exactly when the insert is sent and fits; 503 without a key |
| Outcomes.DeactivateTenantOutcome | internal/handler/tenant.go:154-177 | the update turns off exactly this tenant's row whenever it is sent, and is reported when it succeeds |
| Outcomes.DeactivateThenDetokenize | internal/handler/token_manage.go:144-163 | a token that was deactivated is refused any time later |
| Outcomes.DeactivateTenantThenAsk | internal/handler/tenant.go:169-176 | every request of a tenant that was deactivated is refused any time later and changes nothing |
| TokenizeOutcomes.TokenizeRefuses | internal/handler/tokenize.go:66-105 | no field, a bad PAN, a bad CVV alone and a failed lookup get 400, 400, 400 and 500, with the store unchanged |
| TokenizeOutcomes.TokenizeKnownOutcome | internal/handler/tokenize.go:107-109 | a known card keeps its token, is not answered as created, and no table changes |
| TokenizeOutcomes.InsertStep | internal/repository/token_repo.go:22-32 | the token row is inserted unless its tenant is missing, the id is taken or the card has got a token since the lookup, which ends with 500 and writes nothing |
| TokenizeOutcomes.InsertPANStep | internal/repository/vault_repo.go:21-31 | the vault row is inserted unless its token row is missing or it is there |
| TokenizeOutcomes.TokenizeNewRefuses | internal/handler/tokenize.go:111-128 | a new card whose key or token row cannot be made gets 503 or 500, and leaves the token row only if its insert was sent and the reply lost |
| TokenizeOutcomes.TokenizeNewOutcome | internal/handler/tokenize.go:125-150 | the rows a new card leaves for every fault of the second insert, under the tenant's key; it is answered as created exactly when both inserts and the CVV part succeed |
| TokenizeOutcomes.TokenizeCVVOutcome | internal/handler/tokenize.go:157-197 | a request without a PAN stores its CVV and echoes the CVV token |
| TokenizeOutcomes.CVVOutcome | internal/handler/tokenize.go:157-197 | the CVV part for every fault of its four commands: record, expiry, previous token dropped, owner noted, and the echo |
| TokenizeOutcomes.TokensExactlyForValidFields | internal/handler/tokenize.go:56-198 | when nothing fails, a request of an active tenant gets tokens exactly when it has a PAN or a CVV and no bad one |
| Lookups.DetokenizeResolves | internal/handler/detokenize.go:67-119 | a detokenize request served alone reveals the PAN of an active row or takes a live CVV, and is refused otherwise |
| Lookups.StatusWritesNothing | internal/handler/token_manage.go:65-120 | whatever fails, asking for a status changes nothing |
| Lookups.StatusAgreesWithDetokenize | internal/handler/token_manage.go:65-120 | in every reachable state the status says active exactly when a detokenize request would get a value and the token is a PAN token or CVVs have a positive lifetime; it consumes nothing |
| Walks.WalkAsksLeaves | internal/proxy/revealer.go:39-74 | with any oracle, a walk asks for the token leaves one after the other and for nothing after the first refusal |
| Walks.VisitMeetsLeaves | internal/proxy/revealer.go:39-63 | whatever the map order, the walk meets each token leaf once |
| Walks.WalkIsRight | internal/proxy/revealer.go:39-74 | with any oracle whose answers are right and stay right, a walk that succeeds put a right answer in the place of every token leaf and changed nothing else |
| Walks.WalkKeepsShape | internal/proxy/revealer.go:39-74 | with any oracle that never answers with a token, a walk that succeeds keeps keys, lengths and other leaves, leaves no token-shaped string and made one call for each token leaf |
| Walks.TokenFreeIsUntouched | internal/proxy/revealer.go:64-74 | with any oracle, a payload without tokens comes back unchanged with no call |
| Reveal.GetsThrough | internal/proxy/revealer.go:39-74 | an order gets through exactly when every token has a value and no CVV token occurs twice |
| Reveal.OrderDoesNotMatter | internal/proxy/revealer.go:39-74 | when nothing goes wrong all orders succeed or all fail, with one tree, one resulting store and one call for each token leaf |
| Reveal.FailedWalk | internal/proxy/revealer.go:41-66 | when nothing else goes wrong, a failed walk has resolved exactly the leaves before the failing one and stopped there |
| Reveal.FillKeepsShape | internal/handler/tokenize.go:247-290 | filling a payload with stored digits keeps its shape and leaves no token |
| RevealRuns.RevealedValuesAreDigits | internal/handler/detokenize.go:74-117 | every value a detokenize reply carries, in any run, is digits |
| RevealRuns.RevealFills | internal/proxy/revealer.go:76-106 | at any point of any run and whatever fails, a walk that succeeds gives the payload filled with the values its tokens had at that point, and every answered call was sent and its reply arrived |
| RevealRuns.RevealKeepsShape | internal/proxy/revealer.go:39-74 | at any point of any run and whatever fails, a successful walk keeps the shape, leaves no token and made one call for each token leaf |
| RevealRuns.InterleavedRevealIsRight | internal/proxy/revealer.go:39-106 | with any steps of any other requests before, during and between its calls, a walk that succeeds puts in the place of each token what the request that generated it for this tenant was given, changes nothing else, and leaves no token |
| RevealRuns.SecondWalkDoesNothing | internal/proxy/revealer.go:39-74 | walking what a walk revealed, whatever went wrong in it, makes no call with any oracle and changes nothing |
| RevealRuns.RevealIsDetermined | internal/proxy/revealer.go:39-74 | at any point of any run, when nothing goes wrong, success, tree, shape, calls and tokens used do not depend on the order |
| RevealRuns.FailedReveal | internal/proxy/revealer.go:41-66 | when nothing else goes wrong, the CVV tokens a failed walk consumed are those before the failing leaf and none is restored |
| Consumption.RevealUsesUp | internal/proxy/revealer.go:41-66 | whatever goes wrong, the CVV tokens used up are exactly those at the leaves answered before the walk stopped, and the one it stopped at exactly when its call reached the tokenizer and sent the command that took it |
| RoundTrip.TokenizeServed | internal/handler/tokenize.go:85-197 | what a smooth tokenize request stores and echoes, for a known and for a new card |
| RoundTrip.TokenizeThenReveal | internal/handler/tokenize.go:153-197 | at any point of any run, revealing the echoed body any time later gives back the original exactly when the card was new or its token is active with its PAN stored, and the CVV has not expired |
| Storage.RedisServer.GetDel | internal/redis/cvv_store.go:64-73 | GETDEL returns an unexpired value and removes the key in one step |
| Storage.TenantRepo.Create | internal/repository/tenant_repo.go:21-31 | inserts unless the id exists or a text has more characters than its column |
| Storage.TokenRepo.Create | internal/repository/token_repo.go:22-32 | inserts unless the tenant is missing or an id or blind index is taken |
| Storage.VaultRepo.Create | internal/repository/vault_repo.go:21-31 | inserts unless the token row is missing or has a vault row |
| Storage.CVVStore.RetrieveCVVToken | internal/redis/cvv_store.go:62-73 | takes the value out under the tenant's key |
| Storage.CVVStore.ExistsCVVToken | internal/redis/cvv_store.go:75-83 | says whether TTL answers with a time: the key is there and expires; it changes nothing |
| Storage.CVVStore.InvalidatePreviousCVVToken | internal/redis/cvv_store.go:94-105 | the three commands together, each possibly failing |
| Handlers.TokenizeHandler.EncryptPAN | internal/handler/tokenize.go:200-212 | asks for a data key under the given master key and seals the PAN so that this key opens it, although the key buffer is wiped on the way out |
| Handlers.TokenizeHandler.StoreCVVToken | internal/handler/tokenize.go:214-234 | stores the framed CVV although the key it was framed with is wiped |
| Handlers.TokenizeHandler.ProcessPAN | internal/handler/tokenize.go:97-150 | finds or makes the PAN token, as the step program does |
| Handlers.TokenizeHandler.ProcessCVV | internal/handler/tokenize.go:169-197 | stores the CVV and replaces the owner, as the step program does |
| Handlers.TokenizeHandler.ServeHTTP | internal/handler/tokenize.go:56-198 | leaves the store and replies as the tokenize step program behind the gate, whose every outcome is in TokenizeOutcomes |
| Service.DetokenizeHandler.DecryptPAN | internal/handler/detokenize.go:122-141 | the PAN, empty without a vault row, an error when it cannot be opened; the key is wiped |
| Service.DetokenizeHandler.RetrieveCVVToken | internal/handler/detokenize.go:143-170 | the CVV taken out of Redis, or empty for every way it can be missing |
| Service.DetokenizeHandler.ServeHTTP | internal/handler/detokenize.go:50-120 | leaves the store and replies as the detokenize step program behind the gate, whose every outcome is in Outcomes |
| Service.TokenManageHandler.GetStatus | internal/handler/token_manage.go:54-121 | replies as the step program, and may modify nothing |
| Service.TokenManageHandler.Deactivate | internal/handler/token_manage.go:123-164 | leaves the tables and replies as the step program behind the gate, whose every outcome is DeactivateOutcome |
| Service.TenantHandler.Create | internal/handler/tenant.go:48-98 | check, key, insert: leaves the tables and replies as the step program, whose every outcome is CreateTenantRefuses or CreateTenantOutcome |
| Service.TenantHandler.Deactivate | internal/handler/tenant.go:154-177 | leaves the tables and replies as the step program, whose every outcome is DeactivateTenantOutcome |
| Service.Tokenizer.RequireTenant | internal/auth/tenant.go:22-55 | lets a request pass only for a well-formed id of an active tenant, and hands on its key ARN |
| Service.Tokenizer.ServeHTTP | cmd/tokenizer/main.go:85-111 | every request, through the gate and its handler, leaves the store and gets the reply of the step program served alone |
| Payloads.SpellsOne | internal/proxy/revealer.go:39-63 | a payload in memory reads as one JSON value |
| Proxy.Client.Detokenize | internal/proxy/revealer.go:76-106 | one call: the value of a 200 reply that arrived, an error for any other and for a request or reply lost on the network; RevealFills and RevealUsesUp say what that comes to over a walk |
| Proxy.Revealer.ScanAndReveal | internal/proxy/revealer.go:36-74 | rewrites maps and slices in place, in some order of the keys, and ends with the store, the number of calls and the tree of a walk in that order, whatever goes wrong with each call |
| Forwarding.ForwardOutcome | internal/handler/forward.go:46-81 | a missing tenant or destination gets a 400 with nothing done and a failed reveal a 404 with nothing sent; otherwise the tree is sent once to the order's destination, with its verb or POST without one and its headers over the JSON content type, and the caller gets the answer, or a 502 without one |
| Forwarding.ForwardHandler.ServeHTTP | internal/handler/forward.go:37-82 | leaves the store, sends and replies as that function does for some order of the keys |
| Forwarding.ForwardsWholeOrNothing | internal/handler/forward.go:62-74 | at any point of any run and whatever fails, either nothing is sent and the caller is told, or every call's reply arrived and the payload filled with the values its tokens had, of the same shape and without tokens, is sent once |
| Forwarding.ForwardsAllOrNothing | internal/handler/forward.go:62-74 | when nothing else goes wrong, the fully revealed payload is sent exactly when every token leaf can be resolved, and otherwise nothing is |
| Overlaps.OverlapCanLeaveTwo | internal/redis/cvv_store.go:96-105 | from every reachable state in which a card has a token, two overlapping requests can leave two live CVV tokens with no step failing |
| Overlaps.LostOwnerLeavesTwo | internal/redis/cvv_store.go:103-104 | from every such state with no request in progress, two requests one after the other can leave two live CVV tokens when one owner command is lost |
| Shortfalls.BadCVVRefusedAfterStoring | internal/handler/tokenize.go:157-167 | a request with a bad CVV gets a 400 and leaves the store as it was exactly when it does not bring a new card; a new card is stored all the same |
| Shortfalls.VaultRowIffInsertSent | internal/handler/tokenize.go:125-146 | for a new card and any fault of the second insert, the vault row is there exactly when that statement was sent; without it the reply is 500 and the token detokenizes to the empty value |
| Shortfalls.EarlierLookupFinishes | internal/handler/detokenize.go:74-87 | a detokenize request that found its token active reveals the PAN whatever happened to the token since |
| Shortfalls.DeactivateLeavesCVVs | internal/handler/token_manage.go:144-147 | deactivating a PAN token changes no Redis key |
| Witnesses.NewCardIsReachable | internal/handler/tenant.go:67-93 | a concrete run reaches a state in which a new card can come, with a good or a bad CVV |
| Witnesses.KnownCardIsReachable | internal/handler/tokenize.go:97-149 | a concrete run reaches a quiet state in which two more requests for a known card can come |

## Left out

- Forwarding.ForwardHandler.ServeHTTP: what the destination does is a parameter; header names are passed on without canonical spelling, and the wiping of the marshalled body is not modelled.
- Envelope.PANRoundTrip: a sealed text shorter than a tag, on which the handler would panic, is outside the assumed laws.
- Storage.TenantRepo.Create: of the column widths only those of the tenant name and key ARN are modelled, the others cannot be exceeded by what the handlers insert.
- Invalidation.AtMostOneLiveCVV: an overlap or a failed owner command does not always leave two tokens; the converse is shown as a possibility from every such state.
- Storage.CVVStore.StoreCVVToken: the client rounds lifetimes below a millisecond up, and asks to keep the old lifetime for one of minus one nanosecond; the first is not modelled, the second is no lifetime here as for all others that are not positive.
- JSON text encoding and decoding, HTTP plumbing, routing, health checks, configuration, migrations and process start: payloads are decoded trees and requests are values.
- The insides of AES-GCM, HMAC-SHA-256, the key service and the random source: abstract, with the laws named above.
- Generating an id, a data key or a key ARN is one step with the statement that follows it, since only that request sees it in between.
- Bearer authentication, roles and mutual TLS: single guards in front of the handlers.
- Audit log, masking and the audit trail: write-only for the handlers, and its errors are swallowed.
- Listing and getting tenants, created and updated times and the remaining TTL in replies, and updating a card's expiry: no property beyond reading a row.
- The older CVV methods without token ids have no caller; only their key builder is modelled.
