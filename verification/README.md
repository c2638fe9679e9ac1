# A verified model of the OAuth authorization server

The server runs the OAuth authorization-code flow with PKCE and rotating refresh tokens. A
client registers; an authorization becomes a transaction, a login turns the transaction into
a consent session, an approval turns that into a code, an exchange turns the code into the
first grant of a refresh family, and each refresh replaces the grant by its successor. The
program tells this protocol three times: as pure commit validators, as an in-memory store and
as a SQLite store. The engine reads a snapshot, prepares records and secrets, and commits.

This project models all of these and proves what holds of every run, with any number of
engine calls in progress at once.

| file | models |
|---|---|
| `TextOrder.dfy`, `Scopes.dfy` | string order; scope sets as strictly sorted sequences, their loops and their texts |
| `Model.dfy`, `Transitions.dfy` | the records, digests and errors; the four commit validators |
| `StoreSpec.dfy` | one store call as a function on values |
| `MemoryStore.dfy` | the in-memory store: a class with five map fields and its loops |
| `StoreRuns.dfy` | runs of store calls, the record of everything ever inserted, the invariant |
| `StoreSafety.dfy`, `FamilySafety.dfy` | what the invariant means for runs: single use, families, replay, provenance, bounds |
| `References.dfy` | when every live record names a registered client, and how long a touched client stays |
| `Timestamps.dfy`, `SqliteStore.dfy` | time as text; the SQLite store as tables and transactions |
| `Readings.dfy`, `StoreAgreement.dfy` | commits that read the clock twice; both stores side by side |
| `Config.dfy`, `Registry.dfy` | configuration and resource registry checks |
| `StoreAnswers.dfy` | what each answer of the store means |
| `Plans.dfy`, `Engine.dfy` | what each engine call prepares, and the engine class that performs it on a store |
| `Requests.dfy` | exactly when each engine call goes on, every field it builds, and what each error means |
| `Books.dfy` | the ledger of a run: which request every record answers, and what was handed out |
| `EngineRuns.dfy`, `EngineSafety.dfy` | interleaved engine calls as a state machine with that ledger, and its theorems |
| `EngineTokens.dfy`, `EngineReplies.dfy` | what every token stands for, and what every caller is told |
| `EngineAlone.dfy` | a call of the state machine that runs alone is the engine's own operation |
| `EngineClients.dfy` | clients over runs of the server |
| `EngineScenarios.dfy` | two runs of the server call by call, and the exact reach of the lifetime rule |
| `EngineDurable.dfy` | the engine over the SQLite store, with its own reads |
| `EngineStores.dfy` | the engine over the memory store beside the same calls on SQLite |
| `Fixtures.dfy` | the counting secret source |

## Assumptions

- The clock does not go back, never shows the zero time, and is the same for engine and store.
- A secret (client ID, token, family ID) is never drawn twice. `Fixtures.dfy` discharges this
  for the counting source, until its 64-bit counter comes round. No store checks that a family
  ID is new.
- `DigestCredential` is an ideal hash: injective, and never all zero.
- The principal codec and JSON decode what they encode, except for the tokens that JSON is told
  to leave out; `reflect.DeepEqual` is equality. Principal attributes are a text.
- The state policy is fixed during a run. URL parsing, the `S256` function and the verdicts of
  the identity, scope-policy, token and secret dependencies are parameters.
- An instant is a number of nanoseconds, unbounded; lifetimes in the configuration are 64-bit.
- Every instant that the SQLite store writes lies in the years up to 9999: the program refuses to
  encode later ones, and the model, which would cut their year to four digits, says nothing of them.

## Where the code does not do what one would expect

- `BeginAuthorization` touches its client and creates the transaction in two store calls. If a
  whole idle time passes between them, a registration by anyone evicts the client, and the new
  transaction is live without it: `EngineScenarios.GapLosesClient` is such a run for every
  accepted configuration, `EngineClients.ServerRecordsHaveClients` the exact condition, and
  `EngineClients.CreationInTimeFindsClient` a bound that a deployment can keep.
- The lifetime check adds two 64-bit durations; the sum can wrap, and then any refresh lifetime
  passes (`Config.LifetimeRule` gives the exact condition, `Config.OverflowAccepted` an input).
  What the check is for then fails exactly when the refresh lifetime is positive
  (`EngineScenarios.CodesExpireFirstExactly`).
- A registry that lists one resource twice and omits another passes the comparison with the
  configuration (`Registry.MatchingListIsComplete`, `Registry.RepeatedResourcePasses`).
- Times compared as RFC 3339 text are out of order inside one second, because trailing zeros of
  the fraction are dropped (`Timestamps.OrderWithinSecond`, `Timestamps.FractionOutOfOrder`).
- Registering under an ID that is in use, with an idle client to evict, is refused by both
  stores, but only the memory store keeps the eviction (`StoreAgreement.RegisterAgrees` gives the
  exact condition, `StoreAgreement.RegistrationDiverges` an input).
- A commit of the memory store prunes at one clock reading and judges at a second one; the SQLite
  store reads the clock once. A record that runs out in between is expired for the one and unknown to
  the other (`Readings.ExpiredOrUnknown`); one that only took up room makes the memory store refuse
  for capacity what the SQLite store accepts (`Readings.FullThenRoom`), after which they differ.
  `Readings.TwoReadings` gives the exact conditions, commit by commit, and
  `EngineStores.EngineStoresAgree` what is left of them for calls that the engine makes.
- The SQLite store answers an accepted consent with an empty redirect URI, the memory store with
  the client's. The engine uses neither.
- `ErrInvalid` from a commit is reported as a temporary failure, like an I/O error
  (`pkg/oauthserver/engine.go:619-627`).

## Model

| member | source | states |
|---|---|---|
| EngineSafety.EngineIsLegal | pkg/oauthserver/engine.go:53-524 | From an empty server, any interleaving of engine calls, each with its reads, its touch (made whether or not a token could be drawn) and its commit as separate steps, and each read served by the store or by any state with the same live records, makes a sequence of store calls that is a legal run of the store (fresh secrets, forward clock), and keeps the server invariant |
| EngineTokens.TokensAreTraced | pkg/oauthserver/engine.go:146-501 | Whatever calls interleave, everything handed out is a grant and an access token that answer the caller's own request. Behind them lie one authorization request, one login, one approval and one exchange, each presenting the secret the one before was given; client, redirect URI and resource are those of the authorization request; the verifier shown matches the challenge that came in it; the subject is the one that logged in, and the principal the one that logged in or was revalidated last; every refresh was made by that client with the token before. The scopes are exactly those selected and answered again at each refresh so far, and lie within what was requested, registered, supported by resource and server and answered at login. The access token expires before the authorization began plus the transaction, refresh and access lifetimes |
| EngineReplies.RepliesOfRuns | pkg/oauthserver/engine.go:146-524 | For every commit of every run: the reply is exactly the success, a temporary failure or an invalid grant, as the record it spends is live, its own record has not run out, there is room and the family is below its last generation; what the reply says is so; and the ledger of issued tokens grows by that reply and by nothing else |
| EngineReplies.RepliesExactly | pkg/oauthserver/engine.go:258-262 | Late is invalid grant, except a consent that ran out before it was stored, which like a full table or a failing store is temporary; everything else succeeds; a revocation answers as its kind of cause does |
| EngineReplies.RepliesHold | pkg/oauthserver/engine.go:204-402 | A refresh token returned is the secret drawn in that call and names a live, active grant of the client that asked, with the scopes and the principal of the response; a transaction token names the transaction asked for; a consent token a live consent of the user who logged in; a redirect goes to the URI and with the state of the authorization request, with a code that names a live code for exactly the scopes selected; a withdrawal has left its family dead |
| EngineReplies.TokenCanBeRefreshed | pkg/oauthserver/engine.go:402-495 | A refresh token that was handed out, presented by its client in the state after it, gets a successor planned whenever the identity provider vouches for its subject and the dependencies answer |
| EngineSafety.CodesExpireFirst | pkg/oauthserver/config.go:78 | Under an accepted configuration whose lifetime sum does not overflow, every code of every run expires strictly before its authorization ends |
| EngineScenarios.CodesExpireFirstExactly | pkg/oauthserver/config.go:78 | For an accepted configuration, that holds of every run exactly when the sum does not overflow or the refresh lifetime is not positive; otherwise a whole flow, approved at the last moment, is a run in which it fails |
| EngineSafety.EngineSpendsOnce | pkg/oauthserver/engine.go:218-501 | However calls interleave, of all commits presenting one transaction, consent, code or refresh token at most one goes through |
| EngineSafety.ReplayEndsFamily | pkg/oauthserver/engine.go:440-447 | Once a refresh call that presented a spent token through its own client before expiry has returned, its store call not having failed outright, no active grant of the family is left, in that and every later state of the run |
| EngineSafety.RaceEndsFamily | pkg/oauthserver/engine.go:416-501 | If two refreshes of one token both reach their commit before the family expires, whatever runs in between, the family is fully revoked from then on |
| EngineSafety.LoginNeedsClient | pkg/oauthserver/engine.go:223-245 | A login otherwise in order is prepared exactly when the client of its transaction is stored: its redirect URI and resource are always there |
| EngineClients.ServerRecordsHaveClients | pkg/oauthserver/engine.go:190-204 | Over any interleaving, every state has the clients of all its live records registered exactly when every creation of a live transaction still finds its client |
| EngineClients.LoginFindsClient | pkg/oauthserver/engine.go:223-245 | In such a run a login on a live transaction whose dependencies answer is always prepared |
| EngineClients.CreationInTimeFindsClient | pkg/oauthserver/engine.go:190-204 | A creation finds its client when its reading lies before the earliest reading of its own touch, and of all touches of the client that follow it, plus the idle time |
| EngineScenarios.GapLosesClient | pkg/oauthserver/engine.go:190-204 | For every accepted configuration a run in which a call is overtaken between touch and creation and leaves a live transaction whose client is gone |
| EngineSafety.EveryRevocationHasCause | pkg/oauthserver/engine.go:440-520 | In any run, a step after which a stored grant is newly revoked commits a request that presented a token of its family and was made by the client that token was given to: a refresh with a token already spent, or for a principal that was found ineligible, or a withdrawal, or a rotation answered revoked because the token was spent meanwhile or its generation is the last |
| EngineDurable.EngineOnSqlite | pkg/sqlitestore/store.go:251-753 | Every run of the engine over an empty SQLite store, reading its tables and acting on their answers, any calls interleaved, is in step with a legal run of the server whose reads see the same tables: at every moment the same calls under way, secrets drawn, books and past, the same answer to every store call, and tables that agree with its store; for any run whose compared texts are in order |
| EngineDurable.TokensOnSqlite | pkg/oauthserver/engine.go:251-258 | Every token the engine issues over the tables is traced as in `EngineTokens.TokensAreTraced` |
| EngineDurable.RepliesOnSqlite | pkg/sqlitestore/store.go:528-685 | A refresh token that the engine hands out over the tables names a live, active row in them that says what the response says |
| EngineDurable.SpentOnceOnSqlite | pkg/sqlitestore/store.go:366-685 | Of all commits that engine calls make on the tables with one credential at most one is answered with success |
| EngineDurable.ReplayOnSqlite | pkg/sqlitestore/store.go:686-700 | Once a refresh call that presented a spent token has returned, its store call not having failed outright, the tables hold no live, active row of the family |
| EngineStores.EngineStoresAgree | pkg/memorytest/store.go:94-227 | The store calls of any run of the engine over the memory store, made on an empty SQLite store too: the stores agree before and after every call exactly when no commit in order is refused for room that rows running out between its two readings would have made; and then no caller of the engine can tell the answers of one store from those of the other |
| EngineStores.PartsWhenCrowded | pkg/memorytest/store.go:97-111 | A call that brings keys of its own parts the stores exactly when it is such a commit |
| EngineStores.RepliesWhenRoom | pkg/oauthserver/engine.go:619-627 | Two readings and one give answers that the engine reports alike exactly when it is not, although one may answer consumed, expired or revoked and the other not found |
| EngineStores.DeadOnSqlite | pkg/sqlitestore/store.go:686-700 | A family that is dead in the server has no live, unrevoked row in those tables |
| EngineStores.ReadsAgree | pkg/sqlitestore/store.go:347-365 | From agreeing stores every call plans the same or is refused with the same error whichever it reads, expired records included, unless the record runs out at the very instant it is checked, or a withdrawal, which does not check, finds an expired grant |
| EngineSafety.OnlyCapacityRefuses | pkg/oauthserver/engine.go:258-262 | A commit whose predecessor is still live and unspent is answered with capacity exactly when the table is full, with revoked exactly at the generation limit, and otherwise succeeds: the engine's own records pass every validator and meet no digest collision |
| EngineRuns.ServerStepKeeps | pkg/oauthserver/engine.go:146-524 | Every step of every engine call, at any interleaving, keeps the store invariant, the facts known of each pending plan, and the books |
| EngineRuns.CallsAreLegal | pkg/oauthserver/engine.go:190-204 | The store call a step makes is enabled: secrets of a pending call are not in the store's past, and the clock has not gone back |
| EngineRuns.CommitBooked | pkg/oauthserver/engine.go:200-261 | A commit that goes through was in time for the record it spends, and its record and its response are what its request asked for: the books stay in order |
| EngineRuns.RenewKnown | pkg/oauthserver/engine.go:428-494 | What a refresh carries from its read to its commit: nothing; a revocation set off by the client and the token of the request, with its cause; or a successor of the recorded grant presented by its own client, with the revalidated principal and exactly the scopes in both the grant and the answer |
| EngineRuns.RedeemKnown | pkg/oauthserver/engine.go:371-396 | What an exchange carries: the recorded code presented by its client, with its redirect URI and a verifier of its challenge, a first grant that says what the code says, and a response that says what the grant says |
| EngineRuns.BeginKnown | pkg/oauthserver/engine.go:172-200 | A prepared transaction has the state, challenge, scopes, redirect URI and resource of its request, names a registered client and redirect URI and a configured resource, and asks for no more than client, resource and server allow |
| EngineRuns.LoginKnown | pkg/oauthserver/engine.go:251-258 | A prepared consent is bound to the transaction read, is for the principal given, allows exactly what was requested, registered, supported and answered, and carries the two deadlines |
| EngineRuns.ResolveKnown | pkg/oauthserver/engine.go:324-340 | A prepared decision is on the recorded consent that was presented; an approval brings a code for exactly the scopes selected, a denial none; and the redirect is to that consent's client with its state |
| EngineAlone.AloneIsPerform | pkg/oauthserver/engine.go:301-524 | The steps of a decision, exchange, refresh or revocation with nothing in between leave the store and give the reply that the operation does |
| EngineAlone.LoginAlone | pkg/oauthserver/engine.go:218-265 | The same for a login with its two reads |
| EngineAlone.AuthorizationAlone | pkg/oauthserver/engine.go:146-207 | The same for an authorization, which touches its client on the way whether or not it has a token to go on with |
| Requests.BeginExactly | pkg/oauthserver/engine.go:146-200 | A transaction is planned exactly for a request in order with a token drawn; every field of it is the request's; each error names something that is wrong with the request, and a failed draw is temporary |
| Requests.LoginExactly | pkg/oauthserver/engine.go:218-258 | A login is planned exactly for a valid subject, a live transaction, a known client and resource, and answers; the consent is for the principal given and allows exactly the intersection; access denied, invalid grant and temporary have exactly their own cases |
| Requests.DecisionExactly | pkg/oauthserver/engine.go:301-340 | A decision is planned exactly for a live consent and a selection in order; an approval's code has exactly the scopes selected; a denial spends the consent without a code; each error has exactly its own case; the redirect carries the client's URI and state, and the code if there is one |
| Requests.ExchangeExactly | pkg/oauthserver/engine.go:352-402 | An exchange is planned exactly when the code is stored, presented by its client with its redirect URI and verifier, in time, and the dependencies answer; grant and response say what the code says, and the refresh token is the secret drawn |
| Requests.RefreshExactly | pkg/oauthserver/engine.go:416-501 | A refresh by anyone but the client of a live, unrevoked grant is an invalid grant; a spent token or an ineligible principal plans the revocation and nothing else does; a rotation is planned exactly when the subject is vouched for and the dependencies answer; the successor has the revalidated principal and exactly the scopes in both grant and answer |
| Requests.RevokeExactly | pkg/oauthserver/engine.go:505-524 | A withdrawal is planned exactly for a stored token presented by its own client, whatever the state of the grant |
| Requests.RegisterExactly | pkg/oauthserver/engine.go:53-101 | Metadata is accepted exactly when sizes, redirect URIs and scopes are in order, otherwise the first of these is named; the client is unverified, has the trimmed redirect URIs in order and the scopes asked for, or all that the server supports |
| Requests.ErrorsTold | pkg/oauthserver/engine.go:619-627 | A store error is reported as temporary exactly when the store is full or failing or the commit malformed, and otherwise as the call's own error |
| Requests.ListIsSet | pkg/oauthserver/scopes.go:11-31 | A list of scopes is accepted exactly when each entry is one, and stands for the set of its trimmed entries |
| Engine.Engine.RegisterClient | pkg/oauthserver/engine.go:53-101 | Registers exactly when the metadata is valid and an ID is drawn, with the trimmed distinct redirect URIs and the requested scopes or all supported ones; otherwise changes nothing and answers with the error of the first check that failed |
| Engine.CollectRedirects | pkg/oauthserver/engine.go:57-72 | The loop accepts a list exactly when every URI is valid, short enough and different from the others after trimming, and returns the trimmed list |
| Engine.Engine.BeginAuthorization | pkg/oauthserver/engine.go:146-207 | Performs its plan on the store with the client touched; touches nothing when it refuses before that; what the plan is, `Requests.BeginExactly` says from the input |
| Engine.Engine.CompleteLogin | pkg/oauthserver/engine.go:218-265 | Performs its plan: store and reply are those of the planned commit; what the plan is, `Requests.LoginExactly` says from the input |
| Engine.Engine.DecideConsent | pkg/oauthserver/engine.go:301-350 | Performs its plan, with a code on approval and none on denial; what the plan is, `Requests.DecisionExactly` says from the input |
| Engine.Engine.ExchangeCode | pkg/oauthserver/engine.go:352-403 | Performs its plan for the code bound to client and redirect URI; what the plan is, `Requests.ExchangeExactly` says from the input |
| Engine.Engine.Refresh | pkg/oauthserver/engine.go:416-501 | Performs its plan: refusal, family revocation, or rotation; what the plan is, `Requests.RefreshExactly` says from the input |
| Engine.Engine.Revoke | pkg/oauthserver/engine.go:505-524 | Revokes the whole family of a token presented by its own client, and otherwise nothing, and answers as its plan does; a plan hands a store error on as it is; what the plan is, `Requests.RevokeExactly` says from the input |
| Plans.TemporaryFailureKeepsLive | pkg/oauthserver/engine.go:448-497 | An exchange or refresh that answers a temporary failure leaves every live record as it was |
| Plans.RevocationHasCause | pkg/oauthserver/engine.go:440-497 | A refresh that reads one store and commits on another, whatever ran in between, newly revokes a grant only if it read a spent token, was told that the principal is ineligible, or its rotation answered revoked |
| Plans.LoginPlanValidates | pkg/oauthserver/engine.go:251-258 | The consent built passes its validator exactly while the transaction is unspent and live and the consent has not run out |
| Plans.DecidePlanValidates | pkg/oauthserver/engine.go:324-334 | The decision built passes its validator exactly while the consent is unspent and live and the code has not run out |
| Plans.ExchangePlanValidates | pkg/oauthserver/engine.go:396-397 | The grant built passes its validator exactly while the code is unspent and live, the authorization has not ended, and a family ID was drawn |
| Plans.RefreshPlanValidates | pkg/oauthserver/engine.go:494-495 | The successor built passes its validator exactly while the grant is unexpired |
| Plans.ReplayPlansRevocation | pkg/oauthserver/engine.go:428-447 | A spent token presented through its own client in time plans the revocation of its family, whatever the other dependencies answer |
| StoreSafety.CredentialSpentOnce | pkg/memorytest/store.go:94-227 | In any run of store calls at most one call presenting a credential succeeds, even after the credential was pruned |
| StoreSafety.StepAdvances | pkg/memorytest/store.go:94-291 | No call unmarks a consumed or revoked record, or brings back a record that was stored before |
| StoreRuns.RunKeeps | pkg/memorytest/store.go:33-291 | Every run of store calls keeps the invariant |
| StoreRuns.StepKeeps | pkg/memorytest/store.go:33-291 | Every store call keeps the invariant: records known and spent once, families chained, stored and revoked as a whole, tables bounded, live records referenced |
| StoreRuns.RotateKeeps | pkg/memorytest/store.go:197-227 | A rotation extends its family's chain by one and leaves the number of active grants as it was |
| StoreRuns.LoginAccepted | pkg/memorytest/store.go:94-117 | A login that goes through met a live, unspent transaction it is bound to, and its new state is exactly that transaction spent and that consent stored |
| StoreRuns.ConsentAccepted | pkg/memorytest/store.go:127-152 | A decision that goes through met a live, unspent consent; its new state is that consent spent and, on approval, the bound code stored |
| StoreRuns.ExchangeAccepted | pkg/memorytest/store.go:165-187 | An exchange that goes through met a live, unspent code and room for a grant; its new state is that code spent and the bound first grant stored |
| StoreRuns.RotationAccepted | pkg/memorytest/store.go:197-227 | A rotation that goes through met a live, active grant below the generation limit; its new state is that grant spent and its successor stored |
| StoreRuns.ExchangeVerdict | pkg/oauthserver/transitions.go:47-62 | A first grant passes its validator exactly when it is active, unexpired and bound to a live, unspent code with the same set of scopes: comparing scope texts compares scope sets |
| StoreAnswers.LoginAnswers | pkg/memorytest/store.go:94-117 | Each refusal of a login has exactly its own case: missing, spent, expired, not bound or malformed, full, in use |
| StoreAnswers.DecisionAnswers | pkg/memorytest/store.go:127-152 | The same for a decision |
| StoreAnswers.ExchangeAnswers | pkg/memorytest/store.go:165-187 | The same for an exchange |
| StoreAnswers.RotationAnswers | pkg/memorytest/store.go:197-227 | The same for a rotation, which leaves the family revoked exactly when it answers so |
| StoreAnswers.RegisterAnswers | pkg/memorytest/store.go:33-50 | A registration never replaces a client and never costs a configured one; full is told before in use |
| StoreAnswers.RevokedOnce | pkg/memorytest/store.go:244-251 | A family keeps the stamp of its first revocation; revocations of different families commute |
| FamilySafety.FamiliesAreChains | pkg/memorytest/store.go:197-227 | In every reachable store a family's rows are generations 0 to n, all but the last spent, revoked all or none, with one client, subject, resource and expiry and shrinking scopes, at most `MaxRefreshGenerations` of them, and at most one is active |
| FamilySafety.ReplayRevokes | pkg/memorytest/store.go:209-212 | Until its family expires a spent token is stored and marked consumed, and presenting it to a rotation revokes the family |
| FamilySafety.SecondRotationRevokes | pkg/memorytest/store.go:197-227 | In any run the second rotation of one token is refused and, before expiry, leaves the family dead |
| FamilySafety.RevocationIsFinal | pkg/memorytest/store.go:238-251 | After a revocation no later state of any run holds an active grant of the family |
| FamilySafety.GrantsAreTraced | pkg/oauthserver/transitions.go:8-82 | In every reachable store each grant traces through one code and one consent to one transaction, and different families have different transactions |
| FamilySafety.ActiveGrantsConserved | pkg/memorytest/store.go:177-236 | Rotation keeps the number of active grants, exchange adds one, nothing else adds, the bound holds, and the generation never wraps |
| References.LiveRecordsHaveClients | pkg/memorytest/store.go:292-314 | Along any run every state has the clients of its live records registered exactly when every creation of a live transaction found its client |
| References.StepReferences | pkg/memorytest/store.go:33-50 | One call keeps the clients of all live records registered exactly when it does not create a live transaction whose client is gone; eviction never takes a client in use |
| References.TouchedClientSurvives | pkg/memorytest/store.go:37-41 | A client is still stored while the clock shows less than the earliest of its touches plus the idle time |
| References.TransactionWithoutClient | pkg/memorytest/store.go:33-84 | A run of four calls after which a live transaction names a client that is gone |
| StoreSpec.RefusalChangesNothingLive | pkg/memorytest/store.go:205-222 | A refused call leaves exactly the pruned or evicted state, except that a rotation refused as revoked has revoked the family; a registration refused for capacity has evicted nobody |
| StoreSpec.PruneAbsorbs | pkg/memorytest/store.go:258-291 | Pruning at one time and then a later one is pruning at the later one |
| MemoryStore.Store.PruneExpired | pkg/memorytest/store.go:258-291 | The loops remove exactly the expired records and the families whose latest expiry has passed, and count them exactly |
| MemoryStore.Store.FamilyExpiry | pkg/memorytest/store.go:278-283 | The first pass computes each family's latest expiry |
| MemoryStore.Store.PruneRefresh | pkg/memorytest/store.go:284-289 | The second pass keeps a family whole or drops it whole |
| MemoryStore.Store.ClientHasLiveState | pkg/memorytest/store.go:292-314 | The four loops decide whether any live, unspent record names the client |
| MemoryStore.Store.EvictIdleClients | pkg/memorytest/store.go:37-41 | The loop drops exactly the unverified, idle clients without live state |
| MemoryStore.Store.CountActiveGrants | pkg/memorytest/store.go:228-236 | The loop counts the grants that are neither spent nor revoked |
| MemoryStore.Store.RevokeFamily | pkg/memorytest/store.go:244-251 | The loop marks every unrevoked grant of the family and no other |
| MemoryStore.Store.RegisterClient | pkg/memorytest/store.go:33-50 | New state and outcome of a registration, after eviction |
| MemoryStore.Store.CreateAuthorization | pkg/memorytest/store.go:71-84 | New state and outcome, after the prune |
| MemoryStore.Store.CommitLogin | pkg/memorytest/store.go:94-117 | New state and outcome, after the prune, refused or not |
| MemoryStore.Store.CommitConsent | pkg/memorytest/store.go:127-152 | New state and outcome, after the prune; the redirect URI of the spent consent |
| MemoryStore.Store.CommitCodeExchange | pkg/memorytest/store.go:165-187 | New state and outcome, after the prune, refused or not |
| MemoryStore.Store.CommitRefreshRotation | pkg/memorytest/store.go:197-227 | New state and outcome of every branch, with the family revoked on replay and at the generation limit |
| MemoryStore.Store.Prune | pkg/memorytest/store.go:252-256 | The pruned state and exact counts |
| StoreAgreement.StoresAgree | pkg/sqlitestore/store.go:251-753 | Both stores, started empty and given the same calls, agree before and after every call exactly when no commit in order meets a full table, or a digest or a family in use, that is so no more at its second reading, and no registration evicts a client only to find its ID in use; along such a run they answer a call alike exactly when nothing its answer depends on runs out between its two readings; for any run whose compared texts are in order |
| StoreAgreement.CommitAgrees | pkg/sqlitestore/store.go:617-685 | From agreeing states a commit or sweep, with two readings of the clock in the memory store and one in SQLite, answers alike exactly when `Readings.AnswersDiffer` does not hold, and leads to agreeing states exactly when `Readings.ReadingsDiverge` does not |
| Readings.LoginReadings | pkg/memorytest/store.go:94-117 | A login answers otherwise for two readings than for the second alone exactly when the transaction stored at the first has run out by the second, or is in order and meets a table that is full, or a digest that is in use, only at the first; what it leaves alive differs exactly when it is in order, refused at the first reading and accepted at the second |
| Readings.DecisionReadings | pkg/memorytest/store.go:127-152 | The same for a decision and the code it adds; a denial adds none |
| Readings.ExchangeReadings | pkg/memorytest/store.go:165-187 | The same for an exchange, counting active grants; and both accept, but differ afterwards, exactly when the new grant names a family whose rows have run out |
| Readings.RotationReadings | pkg/memorytest/store.go:197-227 | The same for a rotation, which meets no capacity: only the digest of a successor that ran out makes it differ afterwards |
| Readings.TwoReadings | pkg/memorytest/store.go:94-227 | For any commit, from any state, the exact conditions under which two readings of the clock and one answer differently, and under which they leave different live records |
| Readings.FullThenRoom | pkg/memorytest/store.go:97-111 | A login on a live transaction that is refused for capacity with two readings and accepted with one, and the states differ |
| Readings.ExpiredOrUnknown | pkg/memorytest/store.go:97-104 | A login answered expired with two readings and not found with one |
| StoreAgreement.RegisterAgrees | pkg/sqlitestore/store.go:251-283 | Registrations always answer alike, and the stores still agree exactly unless, before the call, the ID is that of a client that stays, there is room left, and some client is idle |
| StoreAgreement.RegistrationDiverges | pkg/sqlitestore/store.go:251-283 | Two clients and a registration after which the stores no longer agree |
| StoreAgreement.ApartIsExact | pkg/sqlitestore/store.go:719-743 | Comparing texts is comparing instants whenever the two are equal or lie in different seconds |
| StoreAgreement.PruneTxWithinSecond | pkg/sqlitestore/store.go:717-753 | For any instants, the text-based prune of all four tables keeps every row that lasts a second longer and every row of a family with such a row, and leaves none that ran out a second ago and no family all of whose rows did |
| StoreAgreement.PruneTxView | pkg/sqlitestore/store.go:717-753 | Where the texts compared are in order, the text-based prune of the rows is the prune of the store |
| StoreAgreement.PruneClientsView | pkg/sqlitestore/store.go:754-781 | Where the texts compared are in order, the client sub-select is the memory store's eviction |
| SqliteStore.Store.RegisterClient | pkg/sqlitestore/store.go:251-283 | The transaction commits or leaves exactly the old tables, answers as specified, and writes only the new client |
| SqliteStore.Store.TouchClient | pkg/sqlitestore/store.go:304-317 | Updates the one column, or reports the client missing |
| SqliteStore.Store.CreateAuthorization | pkg/sqlitestore/store.go:318-346 | Commits or leaves exactly the old tables, answers as specified |
| SqliteStore.Store.CommitLogin | pkg/sqlitestore/store.go:366-418 | Commits insert and mark together or leaves exactly the old tables |
| SqliteStore.Store.CommitConsent | pkg/sqlitestore/store.go:443-501 | Commits code and mark together or leaves exactly the old tables |
| SqliteStore.Store.CommitCodeExchange | pkg/sqlitestore/store.go:528-584 | Commits grant and mark together or leaves exactly the old tables |
| SqliteStore.Store.CommitRefreshRotation | pkg/sqlitestore/store.go:617-685 | Commits the rotation, or the revocation when it answers revoked, or leaves exactly the old tables |
| SqliteStore.Store.RevokeRefreshFamily | pkg/sqlitestore/store.go:686-700 | Writes the stamp into exactly the unrevoked rows of the family; with any stamp but the zero time that is the store's revocation |
| SqliteStore.Store.Prune | pkg/sqlitestore/store.go:701-715 | Keeps exactly the rows whose expiry text lies after the cutoff's and the families with such a row, and counts what it removed in each table |
| Timestamps.YearIsGregorian | pkg/sqlitestore/store.go:719-743 | The year and the day of an instant are those of the Gregorian calendar, by the closed formula for the days before a year |
| Timestamps.OrderAcrossSeconds | pkg/sqlitestore/store.go:719-743 | Instants in different whole seconds compare as their texts do |
| Timestamps.OrderWithinSecond | pkg/sqlitestore/store.go:719-743 | Inside one second the text order is right exactly when the earlier fraction's digits are not a prefix of the later's |
| Timestamps.FractionOutOfOrder | pkg/sqlitestore/store.go:719-743 | An instant whose text sorts before that of an earlier one |
| Timestamps.PruneWithinSecond | pkg/sqlitestore/store.go:719-743 | An expiry that its text puts at or before a cutoff lies less than a second after it, and one put after it less than a second before |
| Scopes.NewScopeSet | pkg/oauthserver/scopes.go:11-31 | The loop and sort refuse exactly the lists with an invalid scope and return the strictly sorted set of the rest |
| Scopes.CanonicalUnique | pkg/oauthserver/scopes.go:29-30 | A set has one strictly sorted form |
| Scopes.FromValuesUnique | pkg/oauthserver/scopes.go:11-31 | A valid list gives the same scope set as another list exactly when they have the same members, whatever order and repetition |
| Scopes.Contains | pkg/oauthserver/scopes.go:45-56 | Binary search decides membership |
| Scopes.Intersect | pkg/oauthserver/scopes.go:63-79 | The merge computes the intersection |
| Scopes.IntersectionElements | pkg/oauthserver/scopes.go:63-79 | The merge is set intersection |
| Scopes.IntersectionLaws | pkg/oauthserver/scopes.go:63-79 | It is commutative, associative and idempotent as sequences |
| Scopes.IsSubsetOf | pkg/oauthserver/scopes.go:81-83 | Comparing lengths decides inclusion |
| Scopes.ParseScopes | pkg/oauthserver/scopes.go:33-43 | The loop parses a text into the scope set of its words |
| Scopes.TextRoundTrip | pkg/oauthserver/scopes.go:33-112 | Parsing a set's text, and decoding its JSON list, restore the set |
| Scopes.TextInjective | pkg/oauthserver/scopes.go:106-112 | Two sets with one text are equal, so the text comparisons elsewhere decide set equality |
| Config.Validate | pkg/oauthserver/config.go:74-102 | The checks accept exactly the configurations with a valid issuer, positive lifetimes and limits, and valid, distinct resources |
| Config.ValidateResources | pkg/oauthserver/config.go:81-95 | The loop accepts exactly the lists of valid resources with distinct IDs |
| Requests.AcceptedExactly | pkg/oauthserver/config.go:74-102 | Accepted are exactly the configurations with a valid issuer, every limit and lifetime positive, the lifetime rule on the wrapped sum, and well-formed resources with distinct IDs and supported scopes |
| Config.LifetimeRule | pkg/oauthserver/config.go:78 | An accepted configuration meets the lifetime rule exactly when the compared sum does not overflow |
| Config.OverflowAccepted | pkg/oauthserver/config.go:78 | Lifetimes that violate the rule and are accepted |
| Registry.NewStaticResourceRegistry | pkg/oauthserver/registry.go:10-30 | The loop builds a registry exactly from valid entries with distinct IDs |
| Registry.FilledContents | pkg/oauthserver/registry.go:10-30 | The registry holds every configured resource under its own ID, and nothing else |
| Registry.ListResources | pkg/oauthserver/registry.go:40-47 | The list holds every resource once, in strictly increasing order of ID |
| Registry.ValidateResourceRegistry | pkg/oauthserver/registry.go:49-68 | The loop accepts a list exactly when it has the configured number of entries and each equals a configured one |
| Registry.MatchingListIsComplete | pkg/oauthserver/registry.go:58-66 | An accepted list holds every configured resource exactly when it repeats no ID |
| Registry.RepeatedResourcePasses | pkg/oauthserver/registry.go:58-66 | A list that is accepted without holding every configured resource |
| Fixtures.DrawsRepeat | pkg/memorytest/fixtures.go:30-35 | Two draws give one secret exactly when they have one prefix and lie a multiple of 2^64 draws apart |
| Fixtures.FreshUntilTheCounterTurns | pkg/memorytest/fixtures.go:25-53 | No secret repeats within 2^64 draws |
| Fixtures.ValueAccepted | pkg/memorytest/fixtures.go:36-53 | Every value passes the constructor it is handed to, unchanged |
| Fixtures.Secrets.Draw | pkg/memorytest/fixtures.go:30-35 | A draw is the next value of the counter and, before it comes round, none of the earlier ones |

## Left out

- EngineRuns.ServerStepKeeps: a store call that fails outright changes nothing; a commit that was made and whose answer was lost is not modelled.
- StoreAgreement.StoresAgree: nothing is claimed of runs in which two instants of one second are compared out of order, as `Timestamps.OrderWithinSecond` says exactly, beyond `StoreAgreement.PruneTxWithinSecond`.
- StoreAgreement.RegisterAgrees: takes records that were inserted unspent, as the engine builds them; the SQLite column and the payload's own mark would differ otherwise.
- EngineDurable.EngineOnSqlite: nothing is claimed, again, of runs in which two instants of one second are compared out of order.
- EngineStores.ReadsAgree: at the very instant at which a record runs out, the store that has pruned it refuses where the other still lets the call go on to its commit; what that answers is `EngineSafety.OnlyCapacityRefuses` and the validators' matter.
- SqliteStore.Store.RevokeRefreshFamily: after a stamp of the zero time the column holds that text, which reads back as unrevoked, and nothing more is claimed; the engine never stamps the zero time.
- Engine.Engine.Revoke: a read of the store that fails outright, which this call alone hands on as an error of its own.
- Requests.DecisionExactly: the redirect is its parts, not the text that `redirectResult` puts together from them; a registered redirect URI is taken to parse.
- Requests and responses over HTTP, form and JSON parsing, the consent page, headers, correlation IDs.
- Signing and verifying access tokens and key sets: issuing a token either fails or succeeds.
- SHA-256, base64, URL parsing, the consent URL, the redirect origin of a client snapshot, and the S256 method check of a challenge, which arrives parsed.
- SQLite's pragmas, schema creation, migration, diagnostics, row counts and driver errors; JSON envelopes beyond the stated round trip.
- Audit events, reason codes and error wording beyond the error code.
- `ValidateRedirect`, `ConsentView`, `Counts`, `DefaultConfig`, the resource-server package, and the clock, scope-policy, revalidator and token-service fixtures: reading one body settles them.
- Mutexes and map iteration order: each store call is one step, and loops over maps visit keys in any order.
