# Pentagon5 verification model

A Dafny model of the parts of Pentagon5 where correctness depends on more than one function: the login, session, device
and WebSocket-ticket protocol, the in-memory broker, the UUIDv7 generator and its two encoders, both ends of the
WebSocket protocol, and the canonical decimal strings of the contracts. `dafny verify dfyconfig.toml` checks it all.

## How it is built

**Authentication.** `AuthTables` holds the identity tables as values and one function for each SQL transaction, with
PostgreSQL's meaning (a row that does not match stays where it is; a violated constraint rolls the transaction back).
`AuthRepository` is the repository as a class that updates its tables in place, each method proved to have exactly the
effect of its transaction and to keep every constraint of the schema. `AuthProtocol` lets any number of workers run
the service methods against one database: a step is one transaction or one answer of the identity provider, so
`complete_login` is seven steps that anything may come between, and it keeps the time it read at its start.
`AuthSessions`, `AuthProvenance` and `AuthSingleUse` carry the inductive invariants over these steps; `AuthSafety`,
`AuthDeliveries` and the end of `AuthSingleUse` state what follows for every run; `AuthSteps` says what each request
does to the rows, and `AuthCompletion` that logins do complete; `AuthBirths` and `AuthRevival` show which dead
sessions have a run that revives them. Every theorem about a reachable state covers every interleaving, every initial
set of users, identities and roles, and a clock that never goes back. Fingerprints are injective, tokens fresh, and a
sealed payload opens only under the associated data it was sealed with.

**Broker.** `BrokerProvider` is the provider as a class. Its `Valid` says that everything it holds is what its execution
log amounts to; `BrokerLedger` and `BrokerLaws` prove what a log of fills at arbitrary positive prices amounts to.

**Identifiers.** `UuidV7` is the generator with its integer shifts, `UuidText` the byte loop of the client, the contract
pattern and the server's `is_uuid7`. `Bits`, `Hex` and `Power` connect shifts, ors and digits with arithmetic.

**WebSocket.** `Envelopes` has what each end builds and what each end accepts, over JSON values. `WebSocketServer` is the
receive loop with the specification of a whole conversation. `ReconnectingClient` is the reconnecting object as a class
whose handlers run when the browser delivers an event.

**Decimals.** `CanonicalDecimal` gives the two patterns as regular expressions and the number a string denotes.

## What the proofs found

- A device can be revoked after `complete_login` has registered it and before it has created the session. The closing
  check then refuses the login, but the session row stays, unrevoked, on a revoked device (`RevivableIsReached`), and
  the next login of that user on that device makes it resolve (`RevivableComesBack`). So "a session that fails to
  resolve never resolves again" holds of sessions that once resolved (`DeathIsPermanent`), and exactly the sessions of
  that kind are the exception (`ComesBackExactly`); no request ever resolved them before (`RevivableNeverResolved`).
- The generator keeps its order across clock rollbacks of any size, not only the small ones its comment mentions. A call
  breaks it exactly when the clock moved on and the part of the millisecond that fits in 48 bits did not, or a carry
  runs into a multiple of 2^48 (`StepKeepsOrderExactly`, with an input in `OrderPast48Bits`). A 64-bit nanosecond clock
  stays below 2^44 milliseconds, so on one neither happens for the first 2^121 calls (`IncreasingOnMachineClocks`).
- Starting a `ReconnectingWebSocket` again after `stop` is safe exactly when nothing of the earlier start is still under
  way (`StartIsSafeExactly`); a pending ticket request is enough to have two of them (`RestartTooSoon`).
- The server takes an optional identifier that is present as null, the client refuses it. Beside what each end's
  library reads as a time, that is all the two validators disagree about (`ValidatorsAgree`, `NullsMatterExactly`, with
  a message in `NullCausationDisagrees`).
- An operation that is a JSON list or object, in a message that is otherwise well framed, makes `_websocket_control` fail
  with an uncaught `TypeError`, and no other JSON value does (`CrashesExactly`, with a message in
  `ListOperationCrashes`). What the JSON parser itself may raise, on deeply nested text for instance, is outside this
  result.

## Model

| member | source | states |
|---|---|---|
| AuthRepository.PostgresAuthRepository.constructor | services/authentication/pentagon5_auth/repository.py:70-71 | a repository of an existing database; from there on every method keeps every uniqueness and foreign-key constraint |
| AuthRepository.PostgresAuthRepository.PutFlow | services/authentication/pentagon5_auth/repository.py:73-92 | stores a login flow once per fingerprint; a duplicate rolls back |
| AuthRepository.PostgresAuthRepository.ConsumeFlow | services/authentication/pentagon5_auth/repository.py:94-112 | returns and deletes an unexpired flow; otherwise nothing changes |
| AuthRepository.PostgresAuthRepository.PutLoginGrant | services/authentication/pentagon5_auth/repository.py:114-132 | stores a grant once per fingerprint |
| AuthRepository.PostgresAuthRepository.ConsumeLoginGrant | services/authentication/pentagon5_auth/repository.py:134-146 | returns and deletes an unexpired grant; otherwise nothing changes |
| AuthRepository.PostgresAuthRepository.ProvisionIdentity | services/authentication/pentagon5_auth/repository.py:148-205 | creates user and identity, or refreshes an active user; an email in use rolls back; status is never changed |
| AuthRepository.PostgresAuthRepository.RegisterDevice | services/authentication/pentagon5_auth/repository.py:207-231 | one device per user and key; a known one is seen again and un-revoked |
| AuthRepository.PostgresAuthRepository.CreateSession | services/authentication/pentagon5_auth/repository.py:233-259 | inserts a session with a fresh token and its audit event, or rolls back |
| AuthRepository.PostgresAuthRepository.ResolveSession | services/authentication/pentagon5_auth/repository.py:261-310 | finds the live session of a token (not revoked, not expired, active user, device not revoked), with that row's user, device and expiry, exactly the permission codes stored for that user, the email and display name of the user, and exactly that user's role names in order; none means no such session |
| AuthRepository.PostgresAuthRepository.RevokeSession | services/authentication/pentagon5_auth/repository.py:312-324 | marks that one session, when it was not revoked, and records the event; every other session row stays as it is |
| AuthRepository.PostgresAuthRepository.RevokeDevice | services/authentication/pentagon5_auth/repository.py:348-370 | revokes the owner's device and every unrevoked session on it; false and no change otherwise |
| AuthRepository.PostgresAuthRepository.PutWsTicket | services/authentication/pentagon5_auth/repository.py:372-395 | stores a ticket for an existing session and a known channel |
| AuthRepository.PostgresAuthRepository.ConsumeWsTicket | services/authentication/pentagon5_auth/repository.py:397-416 | returns and deletes an unexpired ticket of an unrevoked, unexpired session, without looking at the device |
| AuthTransactions.ProvisionKeeps | services/authentication/pentagon5_auth/repository.py:148-205 | provisioning keeps every constraint and every user's status, and binds the subject to the returned user |
| AuthTransactions.RegisterKeeps | services/authentication/pentagon5_auth/repository.py:207-231 | registering keeps every constraint and returns the unrevoked device of that user and key |
| AuthTransactions.RevokeDeviceKeeps | services/authentication/pentagon5_auth/repository.py:348-370 | the cascade keeps every constraint and un-revokes nothing |
| AuthTransactions.ResolvesOne | services/authentication/pentagon5_auth/repository.py:261-310 | a token resolves to exactly its one live session, and to none exactly when no session with the token is live |
| AuthSessions.StepKeeps | services/authentication/pentagon5_auth/service.py:47-177 | every step of every worker keeps the session invariant: a session that ever resolved and is not revoked has an unrevoked device and an active user, sessions belong to their device's owner, tickets to resolved sessions |
| AuthSteps.StartLoginDoes | services/authentication/pentagon5_auth/service.py:47-65 | a login starts exactly for a device key of 8 to 200 characters on one of the six platforms; it stores one sealed flow until the configured time and changes nothing else |
| AuthSteps.CallbackDoes | services/authentication/pentagon5_auth/service.py:72-89 | a callback takes the unexpired flow of its state, and the login goes on exactly when redirect, seal and both secrets are right |
| AuthSteps.ClaimsDo | services/authentication/pentagon5_auth/service.py:85-90 | the identity is the configured issuer's with the claims' subject, email and name; without claims the login ends |
| AuthSteps.ProvisionDoes | services/authentication/pentagon5_auth/service.py:91 | an active known user gets the new email and name, an inactive one stays, an unknown subject gets a new user; the login goes on with the user the subject is bound to |
| AuthSteps.RegisterDoes | services/authentication/pentagon5_auth/service.py:92-97 | the device of this user and the flow's key is seen on the flow's platform and not revoked; no other device changes |
| AuthSteps.CreateDoes | services/authentication/pentagon5_auth/service.py:98-101 | one session row is added, for the configured time from the beginning of the callback |
| AuthSteps.CheckDoes | services/authentication/pentagon5_auth/service.py:102-104 | the closing check passes exactly when the session is alive at the time the callback began |
| AuthSteps.GrantDoes | services/authentication/pentagon5_auth/service.py:105-112 | the grant holds the session token under its own seal, for the configured time from the beginning of the callback |
| AuthSteps.RedeemDoes | services/authentication/pentagon5_auth/service.py:114-125 | an exchange takes the unexpired grant of its code and goes on with the token in it |
| AuthSteps.ExchangeDeliversExactly | services/authentication/pentagon5_auth/service.py:124-126 | in a reachable state an exchange ends with exactly one session grant if and only if its session is alive then, with that token and that session's user, device, expiry and stored permissions |
| AuthSteps.GoneIsFailed | services/authentication/pentagon5_auth/service.py:72-112 | a worker that is gone has stored its grant or failed its login |
| AuthSteps.RefusedIsFailed | services/authentication/pentagon5_auth/service.py:114-126 | an exchange that ends without a session grant fails its login |
| AuthSteps.TokenResolvesExactly | services/authentication/pentagon5_auth/repository.py:261-310 | in a reachable state a session's token resolves exactly while the session is alive, to that session's user, device, expiry and stored permissions |
| AuthSteps.AuthenticateDoes | services/authentication/pentagon5_auth/service.py:128-137 | a request with the token of a live session gets its principal; any other is refused without effect |
| AuthSteps.LogoutStaysWithSession | services/authentication/pentagon5_auth/service.py:143-144 | a logout marks the principal's session at that time if it had no mark, changes no other row, and leaves every other session as alive as it was |
| AuthSteps.RevocationDoes | services/authentication/pentagon5_auth/service.py:149-151 | revoking marks the principal's unrevoked device and its unrevoked sessions at that time, and nothing else |
| AuthSteps.IssueTicketDoes | services/authentication/pentagon5_auth/service.py:153-165 | a ticket is stored exactly for a known channel and, on system.health, with the permission; for the principal's session and the configured time; nothing else changes |
| AuthSteps.ConsumeTicketDoes | services/authentication/pentagon5_auth/service.py:167-177 | a ticket is accepted exactly on its channel before it expires while its session is unrevoked and unexpired; then it is gone and spent |
| AuthSafety.ReachableInv | services/authentication/pentagon5_auth/service.py:47-177 | the session invariant holds in every reachable state |
| AuthSafety.DeathIsPermanent | services/authentication/pentagon5_auth/repository.py:261-276 | a session that once resolved and no longer does never resolves again, whatever runs next, re-registration of its device included |
| AuthSafety.RefusedTokenStaysRefused | services/authentication/pentagon5_auth/service.py:128-137 | the same seen from the bearer of the token |
| AuthSafety.RevocationIsFinal | services/authentication/pentagon5_auth/repository.py:360-369 | no session that is on a device when it is revoked resolves at any later time, whatever runs next |
| AuthSafety.LogoutIsFinal | services/authentication/pentagon5_auth/service.py:143-144 | no session resolves after its logout, at any time, whatever runs next |
| AuthSafety.RegistrationRevivesExactly | services/authentication/pentagon5_auth/repository.py:207-231 | a dead session can be made to resolve by a registration if and only if it is unrevoked and unexpired, of an active user, on a revoked device |
| AuthSafety.OnlyRevivableComeBack | services/authentication/pentagon5_auth/service.py:91-104 | in any run, a dead session that comes back was of that kind |
| AuthSafety.RevivableNeverResolved | services/authentication/pentagon5_auth/service.py:91-104 | no session of that kind ever resolved before |
| AuthSafety.LivenessChecksAgree | services/authentication/pentagon5_auth/repository.py:397-416 | in every reachable state the ticket query accepts a matching unexpired ticket if and only if its session would resolve at the same time |
| AuthSafety.HealthChannelNeedsPermission | services/authentication/pentagon5_auth/service.py:153-165 | a ticket accepted on system.health belongs to a user for whom the permission is stored |
| AuthSafety.RevocationStaysWithOwner | services/authentication/pentagon5_auth/repository.py:348-370 | revoking a device changes no session and no device of another user |
| AuthBirths.ReachableBorn | services/authentication/pentagon5_auth/service.py:91-101 | every session of a reachable state was created by a login for an identity of the configured issuer, started with a device key of 8 to 200 characters |
| AuthRevival.RevivableIsReached | services/authentication/pentagon5_auth/service.py:91-104 | such a session is reachable: a run from an initial state ends with the login refused and its session left behind |
| AuthRevival.RevivableComesBack | services/authentication/pentagon5_auth/service.py:47-101 | from every reachable state another login of its user on its device brings such a session back |
| AuthRevival.ComesBackExactly | services/authentication/pentagon5_auth/repository.py:207-231 | in a reachable state a dead session can come back along some run if and only if it is unrevoked, unexpired, of an active user, on a revoked device |
| AuthCompletion.LoginDelivers | services/authentication/pentagon5_auth/service.py:47-126 | from every reachable state a known active user, or somebody new, with an email of their own has a run, for any device key of 8 to 200 characters and each of the six platforms, that ends with exactly one session grant, for that user on that device, alive then |
| AuthProvenance.RunTraced | services/authentication/pentagon5_auth/service.py:47-126 | every run keeps every flow, worker, session, grant and delivery traced to its start, each login being in one place at a time |
| AuthDeliveries.ReachableLists | services/authentication/pentagon5_auth/service.py:52-103 | in every reachable state no state was started twice and no token given to two sessions |
| AuthDeliveries.EveryDeliveryHasOneStart | services/authentication/pentagon5_auth/service.py:114-126 | among all starts and all created sessions exactly one of each led to a given session grant: its device is the one of that start's device key, its user the one provisioned from that login's claims, and less than 720 seconds passed |
| AuthDeliveries.StartsDeliverOnce | services/authentication/pentagon5_auth/service.py:72-126 | no start leads to two session grants |
| AuthDeliveries.FailedNeverDelivers | services/authentication/pentagon5_auth/service.py:72-126 | a login that failed never delivers a session grant, whatever runs next |
| AuthSingleUse.NothingSpentTwice | services/authentication/pentagon5_auth/repository.py:94-146 | in any run no state, grant code or ticket is consumed twice |
| AuthSingleUse.SpentStaysSpent | services/authentication/pentagon5_auth/repository.py:397-416 | what was consumed once is never consumable again, at any time, on any channel |
| AuthSingleUse.CallbackSpendsState | services/authentication/pentagon5_auth/service.py:72-112 | once a callback has found its flow, no later callback finds it in any run, however the rest of the login ends |
| AuthSingleUse.LoginsBalance | services/authentication/pentagon5_auth/service.py:47-126 | exchanges never outnumber completed logins nor these the started ones; the difference is exactly what is pending, in progress or failed |
| BrokerModels.NewOrderRequest | src/broker/models.py:24-47 | a request exists exactly for a positive quantity, a positive limit price if any, and a limit price if it is a limit order; it carries every field over |
| BrokerProvider.MockBrokerProvider.constructor | src/broker/provider.py:73-85 | starts disconnected with an empty log and the starting cash, in a valid state |
| BrokerProvider.MockBrokerProvider.PlaceOrder | src/broker/provider.py:99-130 | succeeds exactly when connected, a market order, and affordable or covered; the order and the execution then carry the request's symbol, side and quantity under the new identifiers at the market price, other positions stay, and the broker stays valid; otherwise it says why and nothing changes |
| BrokerProvider.MockBrokerProvider.CancelOrder | src/broker/provider.py:132-151 | cancels exactly pending orders; in a valid state it always refuses and changes nothing |
| BrokerProvider.MockBrokerProvider.GetOrder | src/broker/provider.py:153-159 | a connected valid broker knows an order if and only if its log has an execution for it, and the order agrees with it field by field: identifier, symbol, side, quantity, times, a filled market order |
| BrokerProvider.MockBrokerProvider.GetExecutions | src/broker/provider.py:161-166 | the whole log, or for an order of a valid broker its one execution |
| BrokerProvider.MockBrokerProvider.GetPositions | src/broker/provider.py:168-171 | the positions in strictly increasing order of symbol |
| BrokerProvider.MockBrokerProvider.ApplyFill | src/broker/provider.py:182-221 | one fill at any price: the ledger's fill when affordable or covered, otherwise an error and no change |
| BrokerProvider.MockBrokerProvider.RefreshAccount | src/broker/provider.py:223-235 | equity becomes cash plus the market value of all positions |
| BrokerProvider.MockBrokerProvider.Standing | src/broker/provider.py:67-235 | in every valid state cash and positions are net sums of the log, averages are the market price, no prefix of the log overdraws or sells short, every order is filled by one execution |
| BrokerProvider.MockBrokerProvider.GetAccount | src/broker/provider.py:173-176 | the snapshot of a valid broker has the starting equity, cash and buying power equal to the start less the net cost of the log, cash plus market value equal to the start, and lists the positions |
| BrokerProvider.MockBrokerProvider.Connect | src/broker/provider.py:87-89 | connects and changes nothing else |
| BrokerProvider.MockBrokerProvider.Disconnect | src/broker/provider.py:91-93 | disconnects and changes nothing else |
| BrokerProvider.ListingUnique | src/broker/provider.py:168-171 | there is only one sorted list of the positions |
| BrokerProvider.OneExecutionPerOrder | src/broker/provider.py:161-166 | filtering the log by an order's identifier gives its one execution |
| BrokerLedger.FillDoes | src/broker/provider.py:182-221 | when a fill is accepted, and what it does to cash, quantity and average price of its symbol, at any price; no other position changes |
| BrokerLedger.ReplayIsNet | src/broker/provider.py:182-212 | a symbol is held if and only if its net quantity is not zero, in that quantity; cash is the start less the net cost |
| BrokerLedger.NeverOverdrawn | src/broker/provider.py:186-201 | in every prefix of an accepted log cash is not negative and no symbol is short |
| BrokerLaws.CostBasisIdentity | src/broker/provider.py:182-221 | at any prices, cash plus the cost of all positions is the start plus the realised gains |
| BrokerLaws.AverageWithinPurchases | src/broker/provider.py:189-197 | an average price lies between the lowest and highest price paid since the symbol was last flat |
| BrokerLaws.AverageBetweenPurchases | src/broker/provider.py:186-212 | between two purchases of a symbol its average price is constant, whatever else is traded and however much of it is sold |
| BrokerLaws.OpenBuysSinceFlat | src/broker/provider.py:186-205 | the purchases that bound an average are exactly those since the symbol was last flat |
| BrokerLaws.EquityIsConserved | src/broker/provider.py:223-235 | when all fills have the market price equity never moves |
| UuidV7.PackIsSum | backend/pentagon5_runtime/uuid7.py:34-36 | the shifted fields are disjoint: or-ing them adds them |
| UuidV7.PackLayout | backend/pentagon5_runtime/uuid7.py:34-36 | millisecond, version, variant and the 74 random bits are read back from the value |
| UuidV7.PackOrder | backend/pentagon5_runtime/uuid7.py:34-36 | packed values compare as millisecond and random bits do |
| UuidV7.StrictlyIncreasing | backend/pentagon5_runtime/uuid7.py:22-37 | for any clock readings and draws later values are greater, while the millisecond has 48 bits |
| UuidV7.StepKeepsOrderExactly | backend/pentagon5_runtime/uuid7.py:22-37 | a call returns a greater value if and only if the clock moved on and so did its low 48 bits (or they are equal and the draw is greater), or it did not and no carry reaches a multiple of 2^48 |
| UuidV7.OrderPast48Bits | backend/pentagon5_runtime/uuid7.py:22-37 | an input on which it fails: one millisecond past 2^48 the value is smaller |
| UuidV7.IncreasingByTheClock | backend/pentagon5_runtime/uuid7.py:22-37 | values increase whenever the latest clock reading and the number of calls leave room below 2^48 |
| UuidV7.IncreasingOnMachineClocks | backend/pentagon5_runtime/uuid7.py:24 | with readings of a 64-bit nanosecond clock values always increase, for 2^121 calls |
| UuidV7.LeadBound | backend/pentagon5_runtime/uuid7.py:24-33 | the generator is at most 1 + (calls - 1) / 2^74 milliseconds ahead of the latest reading |
| UuidV7.LeadBoundTight | backend/pentagon5_runtime/uuid7.py:24-33 | a stopped clock and an all-ones draw reach the bound for every number of calls |
| UuidV7.Uuid7Generator.Uuid7 | backend/pentagon5_runtime/uuid7.py:16-37 | a later clock reading brings its millisecond and the draw, any other adds one with a carry into the millisecond; the value holds both, and is greater than every earlier one while the millisecond has 48 bits |
| UuidV7.Uuid7Generator.constructor | backend/pentagon5_runtime/uuid7.py:11-13 | starts before every clock reading with random bits zero |
| UuidText.TextOrderIsNumericOrder | backend/pentagon5_runtime/uuid7.py:37-46 | canonical texts compare as the numbers do, and are equal only for equal numbers |
| Text.BelowAtFirstDifference | src/broker/provider.py:171 | the order of texts is decided at the first place where they differ |
| UuidText.StampedIsPacked | packages/api-client/src/index.ts:275-288 | the byte loop's bytes are the number the shifts pack |
| UuidText.CreateUuidV7 | packages/api-client/src/index.ts:275-288 | gives the canonical text of that number, which is the text of sixteen bytes holding the millisecond, version, variant and every other random bit as it came; any other count of random bytes is refused |
| UuidText.PatternIsPlacewise | packages/shared-types/schemas/v1/common.schema.json:10-13 | what the contract pattern accepts, place by place |
| UuidText.IsUuid7IsPattern | backend/pentagon5_runtime/uuid7.py:40-46 | the server's check accepts exactly the strings of the contract pattern |
| UuidText.PackedIsUuidV7 | packages/api-client/src/index.ts:3-6 | every value either encoder makes matches the pattern |
| Envelopes.SubscribeIsUnderstood | services/authentication/pentagon5_auth/app.py:118-162 | the client's subscribe envelope is accepted on its own channel with its own identifiers, and on no other channel |
| Envelopes.AcceptedIds | services/authentication/pentagon5_auth/app.py:133-162 | an accepted message has proper identifiers, and a subscription identifier unless it is a heartbeat |
| Envelopes.AcceptedReads | services/authentication/pentagon5_auth/app.py:131-162 | what the server reads in a message is what the message says: operation, channel, correlation and subscription |
| Envelopes.AcknowledgementSays | backend/pentagon5_runtime/envelopes.py:54-81 | every field of an acknowledgement, read back from it |
| Envelopes.HealthSays | backend/pentagon5_runtime/envelopes.py:34-51 | every field of a health message, read back from it |
| Envelopes.SubscribeSays | packages/api-client/src/index.ts:290-307 | every field of the client's envelope, read back from it |
| Envelopes.NewIdHolds | backend/pentagon5_runtime/envelopes.py:76 | an identifier minted by the server is the text of a value holding its millisecond and random bits |
| Envelopes.ClientIdHolds | packages/api-client/src/index.ts:275-288 | an identifier minted by the client is the text of its bytes |
| Envelopes.TimesAreWritten | backend/pentagon5_runtime/envelopes.py:10-13 | the digits of a written time, place by place, with no or six fraction digits on the server and three on the client |
| Envelopes.TimesAreRead | services/authentication/pentagon5_auth/app.py:108-115 | a time is read only from a text that ends in Z, by the server with an offset of zero |
| Envelopes.IncomingSays | packages/api-client/src/index.ts:16-89 | what the client lets through is one of two kinds with these fields and no others |
| Envelopes.AcknowledgementParses | backend/pentagon5_runtime/envelopes.py:54-81 | every acknowledgement of an accepted message passes the client's strict schema |
| Envelopes.HealthParses | backend/pentagon5_runtime/envelopes.py:34-51 | every health message of a named service passes the client's strict schema |
| Envelopes.ValidatorsAgree | packages/api-client/src/index.ts:16-89 | what the server accepts without null identifiers at a time the client can read is exactly what the client's schema accepts, asking something on the channel, at a time the server can read |
| Envelopes.NullsMatterExactly | services/authentication/pentagon5_auth/app.py:142-161 | of the messages the server accepts the client accepts exactly those without null identifiers whose time it can read |
| Envelopes.NullCausationDisagrees | services/authentication/pentagon5_auth/app.py:142 | a heartbeat with a null causation is accepted by the server and refused by the client |
| Envelopes.CrashesExactly | services/authentication/pentagon5_auth/app.py:147-151 | the uncaught exception comes exactly from a well-framed message whose operation is a list or an object |
| Envelopes.ListOperationCrashes | services/authentication/pentagon5_auth/app.py:150 | an empty list as operation raises it |
| WebSocketServer.Receive | services/authentication/pentagon5_auth/app.py:471-512 | one frame ends the connection, with 1003 for one that is not text, 1009 for one too long, 1008 for one refused or beyond the limit, or changes the subscriptions and is answered |
| WebSocketServer.Serve | services/authentication/pentagon5_auth/app.py:468-514 | the loop's subscriptions are the fold of the accepted messages and within the limit; it sends exactly the replies to the frames it went on from, then at most one close and nothing after |
| WebSocketServer.SubscribedExactly | services/authentication/pentagon5_auth/app.py:486-496 | an identifier is subscribed if and only if the last message about it subscribed |
| WebSocketServer.AnsweredInOrder | services/authentication/pentagon5_auth/app.py:497-512 | the messages sent are, in order, one acknowledgement or heartbeat for each accepted frame with its own identifiers on its channel, each followed by one health report of the service exactly for a subscribe on system.health |
| WebSocketServer.RepliesParse | services/authentication/pentagon5_auth/app.py:497-512 | every reply of the loop passes the client's strict schema |
| WebSocketServer.Handshake | packages/api-client/src/index.ts:290-307 | the client's first envelope leaves it subscribed under its own identifier and hearing its own correlation identifier |
| ReconnectingClient.ReconnectingWebSocket.Start | packages/api-client/src/index.ts:338-343 | starts once: resets attempts, shows connecting, asks for a ticket |
| ReconnectingClient.ReconnectingWebSocket.Stop | packages/api-client/src/index.ts:345-350 | clears the timer, closes the socket, shows disconnected |
| ReconnectingClient.ReconnectingWebSocket.TicketArrives | packages/api-client/src/index.ts:355-360 | makes a socket unless stopped meanwhile |
| ReconnectingClient.ReconnectingWebSocket.TicketFails | packages/api-client/src/index.ts:388-395 | shows denied, or schedules a retry, or does nothing when stopped |
| ReconnectingClient.ReconnectingWebSocket.OnOpen | packages/api-client/src/index.ts:361-367 | resets attempts, sends the subscription on the object's socket, then shows connected, and does nothing else |
| ReconnectingClient.ReconnectingWebSocket.OnMessage | packages/api-client/src/index.ts:368-377 | delivers a valid envelope; shows denied and closes on another |
| ReconnectingClient.ReconnectingWebSocket.OnClose | packages/api-client/src/index.ts:378-386 | forgets the socket and shows denied or schedules a retry |
| ReconnectingClient.ReconnectingWebSocket.ScheduleReconnect | packages/api-client/src/index.ts:398-411 | gives up at the limit, else arms one timer with the capped delay |
| ReconnectingClient.ReconnectingWebSocket.OnError | packages/api-client/src/index.ts:387 | asks the object's socket to close and does nothing else |
| ReconnectingClient.ReconnectingWebSocket.OnTimer | packages/api-client/src/index.ts:410 | shows reconnecting and asks for another ticket |
| ReconnectingClient.ReconnectingWebSocket.Connect | packages/api-client/src/index.ts:352-355 | shows the state, then asks for one ticket |
| ReconnectingClient.OneThingUnderWay | packages/api-client/src/index.ts:338-411 | in every run at most one of a ticket request, a live socket and an armed timer exists, named by the object's fields |
| ReconnectingClient.SaysInTurn | packages/api-client/src/index.ts:352-411 | in every run a subscription is sent on exactly the sockets that opened, in their order, and right before each connected; one envelope is delivered for each valid message; denied is shown exactly once for each forbidden ticket, policy close or invalid message; requests and timers follow what announces them |
| ReconnectingClient.StartIsSafeExactly | packages/api-client/src/index.ts:338-343 | start keeps that if and only if it is already started or nothing is under way |
| ReconnectingClient.RestartTooSoon | packages/api-client/src/index.ts:338-356 | start, stop, start before the ticket comes leaves two requests pending |
| ReconnectingClient.BackoffIsBounded | packages/api-client/src/index.ts:398-411 | after a single start, ticket requests and total waiting are bounded by the number of openings; with none, by maxAttempts + 1 and base * (2^maxAttempts - 1); every delay is at most 15000 |
| ReconnectingClient.BoundsAreReached | packages/api-client/src/index.ts:388-411 | when every request fails exactly those bounds are reached and the run ends disconnected |
| ReconnectingClient.MovesDescend | packages/api-client/src/index.ts:352-411 | openings to come and height form a lexicographic measure that every event using up what is under way lowers |
| ReconnectingClient.RunsEnd | packages/api-client/src/index.ts:352-411 | a run with a given number of openings has a bounded number of such events |
| ReconnectingClient.EndsToldOff | packages/api-client/src/index.ts:338-411 | when nothing is under way the last state shown is denied or disconnected, and once stopped it is disconnected |
| ReconnectingClient.SilentAfterStop | packages/api-client/src/index.ts:345-396 | after stop nothing is shown, delivered, requested or armed until the next start or stop |
| CanonicalDecimal.SpellMatches | packages/shared-types/schemas/v1/common.schema.json:19-23 | every canonical spelling is accepted by the Decimal pattern |
| CanonicalDecimal.MatchesSpell | packages/shared-types/schemas/v1/common.schema.json:19-23 | every accepted string is a canonical spelling, non-negative exactly when the other pattern accepts it |
| CanonicalDecimal.DigitsRead | packages/shared-types/schemas/v1/common.schema.json:19-23 | each digit counts its own value after ten times the digits before it |
| CanonicalDecimal.NumberReads | packages/shared-types/schemas/v1/common.schema.json:19-23 | what a string with an optional point and sign denotes, by its digits |
| CanonicalDecimal.OneSpelling | docs/architecture/decisions/0002-identifiers-time-and-decimals.md:16-24 | two accepted strings that denote the same number are equal |
| CanonicalDecimal.EverySpelled | docs/architecture/decisions/0002-identifiers-time-and-decimals.md:16-24 | every finite decimal has an accepted spelling that denotes it |
| CanonicalDecimal.NonNegativeExactly | packages/shared-types/schemas/v1/common.schema.json:24-27 | NonNegativeDecimal accepts exactly the accepted Decimal strings of value at least zero |

## Left out

- BrokerProvider.MockBrokerProvider.PlaceOrder: money is an exact `real`; rounding in the 28-digit decimal context is not part of the model. Order and execution identifiers are parameters, the order's assumed fresh.
- BrokerLaws.CostBasisIdentity: exact arithmetic for the same reason; with rounding a division in the average price may lose the identity in the last digit.
- UuidText.IsUuid7IsPattern: what Python's `int(text, 16)` makes of text that is not 32 plain digits is left open; it is assumed to read plain digits correctly.
- Envelopes.SubscribeIsUnderstood: JSON text, its parsing and its size in bytes are not modelled, messages are JSON values. The timestamp parsers of both ends are left open except that they read what the other end writes for a valid instant. The millisecond in the identifiers and the instant of the envelope are separate parameters.
- WebSocketServer.Serve: a client that disappears while a reply is being sent is not distinguished from one that leaves between frames, and waiting for frames is reading a given sequence of them.
- AuthSafety.DeathIsPermanent: each database transaction is one atomic step that reads the clock as it begins, except in `complete_login`, which keeps its earlier reading; anomalies inside a transaction are not modelled. No code here changes a user's status, so none of the steps does.
- AuthDeliveries.EveryDeliveryHasOneStart: hashing, encryption and token generation are symbolic (injective, bound to their associated data, fresh).
- ReconnectingClient.OneThingUnderWay: covers runs that start again only when nothing is under way; the other restarts are the subject of `RestartTooSoon`. `maxAttempts` and `baseDelayMs` are natural numbers.
- ReconnectingClient.SilentAfterStop: assumes that a socket closed by `stop` delivers no open and no message.
- `AuthenticationService` is a set of step machines and not a class, because its methods interleave with each other between their transactions.
- The OIDC client, token validation, email lower-casing and name trimming: the provider answers a login with arbitrary claims or fails it.
- `list_devices` and the text of errors; audit events are stored but no theorem speaks of them. The tables of roles and their permissions are folded into one set of names and one set of codes for each user; names are ordered by code point, not by a collation of the database.
- ReconnectingClient.ReconnectingWebSocket.OnMessage: the standard browser socket refuses to close with 1008, so it would throw there and stay open; the model asks it to close. No theorem depends on whether it does.
- The regular expressions' `$` is the end of the string; Python and JavaScript libraries that give it another meaning are not modelled.
- HTTP routing, cookies, middleware, configuration loading, logging, metrics, the user interface and the Tauri shell: plumbing over libraries.
- `YahooFinanceMarketDataProvider`, `StrategyRunner` and `MockStrategy`: simple members without state of their own.
- `error_envelope` and the REST schemas of the client: the WebSocket never carries them.
