# Refresh-token rotation and sessions, modelled and proved

The auth server hands out a short-lived access token and a refresh token with one row in
SQLite. Its handlers `register`, `login`, `refresh` and `logout` each run up to three
separate SQL statements with an await between them and no transaction around them, so what
the server promises must hold under any interleaving of any number of requests, some of
which fail or are dropped half-way. This project models that protocol as a step system over
the auth database and proves what holds in every state any run can reach: single use of
refresh tokens, linear sessions, conservation of tokens, what a logout ends and exactly when
it is final, provenance of every accepted token, agreement of the table with its history,
and a reduction of interleaved runs to serial ones. The rotation is that of sections 6 and
10.4 of RFC 6749; `exp` and `jti` are the claims of sections 4.1.4 and 4.1.7 of RFC 7519.

The agreement protocols behind it, the signing secret at start-up and the consumer's profile
on first access, are two instances of one write-once cell.

## How it is put together

| file | content |
|---|---|
| `Core.dfy` | tokens, the two expiry computations on machine integers, `AuthConfig` |
| `WriteOnce.dfy` | check-then-insert on a primary key, any number of racing and crashing calls |
| `AuthDb.dfy` | the tables, each SQL statement as `Answer` and `Effect`; class `Db`, the repository; the table against its history |
| `Machine.dfy` | the handlers as step machines, one step an await, a clock reading or a foreign call |
| `Endpoints.dfy` | the handlers as they are written, proved to do what their step machines do |
| `Ledger.dfy`, `Protocol.dfy` | the life of every stored token; the state, the actions and the runs of the whole system |
| `Invariant.dfy`, `Steps.dfy` | what every action keeps, and that history only grows |
| `Traces.dfy` | what the statements of a request say of it, and who was done before it began |
| `Sessions.dfy`, `Revocation.dfy`, `Finality.dfy`, `Identities.dfy`, `History.dfy` | the theorems on reachable states |
| `Serial.dfy`, `Serializability.dfy`, `SerialOrder.dfy` | the reduction to serial runs |
| `Readings.dfy` | which clock reading every time is, and that ids and salts are fresh draws |
| `Answers.dfy` | what every handler, every served statement and the extractor answer, in terms of calls, readings and tables |
| `Outlived.dfy`, `Races.dfy` | which runs are not serial, and how they come about |
| `Server.dfy`, `Profiles.dfy` | building servers and tokens across them; profiles behind the extractor |

`Protocol.Run` runs any list of actions from `INITIAL`: time passes, servers start and run
the statements of their secret load, requests begin, requests take a step. A step may fail at
any foreign call (database, password hashing, token encoding) and a request may be dropped
before any step. `Reachable(s)` says that some run ends in `s`. The log, the ledger, the
issued tokens and the creators of users are history variables: no step reads them.

## Assumptions

- Each SQL statement is atomic; a statement that fails has no effect.
- Ids and salts are new: no UUID comes twice.
- A token that verifies under the server's secret was signed with it. Clients present only
  tokens that some response delivered, or tokens that do not verify.
- A password matches a hash exactly if the hash was made from it.
- The expiry leeway of the JWT library is a parameter, any natural number.
- The clock never goes back. Each reading is a step of its own: a consume is bound to a
  reading made before it runs, and a store to two.
- `usize` has 64 bits. Sums and casts on lifetimes wrap around as in a release build; where
  a debug build would panic instead, the request counts as dropped.
- The theorems that compare the expiry of a row with that of its token suppose `InRange` of
  the request that stored it: the current time plus its refresh lifetime is below 2^63.
  `AuthCore.LifetimesAgree` says exactly when the two sums are the true one, and when they
  are equal.
- `string` stands for the bytes of a Rust string.

## Where the code says more than it does

The comment at `src/auth/http.rs:308` says that logout revokes all refresh tokens of the
user. It revokes all that are stored. A request of the same user that has passed its
password check or its consume stores its token after the delete, and that token works.
`Finality.LogoutIsFinal` gives the exact condition, `Races.RefreshOutlivesLogout` the way
from any working token to such a state, and `Races.RegistrationWorks` a working token at any
server.

So not every run amounts to a serial one (`Races.SomeRunIsNotSerial`). The reduction
`SerialOrder.RunsAreSerial` supposes that no logout of a user deletes between the first
statement and the store of a registration or a refresh of that user; logins need no such
condition. From the other side, `Outlived.OutlivedIsNotSerial` shows that a run is not serial
when a session outlives a logout of its user that it was signed in before. Between the two
are runs whose logout began before the login of the interrupted session had finished. A
serial order may still put that logout first, for instance when a login stores a token, a
refresh consumes it, the logout deletes and the refresh stores.

A serial run takes each request with the inputs it had, clock readings included, so the
readings of one serial run need not come from one clock.

## Model

| member | source | states |
|---|---|---|
| `AuthCore.LifetimesAgree` | src/auth/core.rs:157-187 | the `usize` sum of the claims and the `i64` sum of the row (`src/db/auth.rs:128`) are both the true sum if and only if now + ttl < 2^63, and are equal if and only if the sum modulo 2^64 is below 2^63 |
| `AuthCore.LifetimesWrap` | src/auth/core.rs:161-187 | beyond that range both are the sum modulo 2^64, the row's as a signed number |
| `AuthCore.AuthConfig.WithDefaults` | src/auth/core.rs:98-104 | no secret, 900 seconds for access and 604800 for refresh tokens |
| `AuthCore.AuthConfig.SetAccessTokenTtl` | src/auth/core.rs:106-108 | changes the access lifetime and nothing else |
| `AuthCore.AuthConfig.SetRefreshTokenTtl` | src/auth/core.rs:110-112 | changes the refresh lifetime and nothing else |
| `AuthCore.AuthConfig.SetSecret` | src/auth/core.rs:118-120 | changes the secret and nothing else |
| `WriteOnce.StepAgrees` | src/db/auth.rs:161-184 | one statement, fault or crash of any call keeps: all returned values are the row; rows and answers never change |
| `WriteOnce.Agreement` | src/db/auth.rs:161-184 | over any run, all calls on one key that return, before or during it, return one same value, and it stays the row |
| `WriteOnce.LateCallReturnsRow` | src/db/auth.rs:161-184 | a call whose SELECT comes after the first INSERT, and that neither fails nor crashes, returns the row as soon as it runs |
| `WriteOnce.LoserFails` | src/db/auth.rs:176-180 | a call about to INSERT where a row already is never returns, whatever runs: it gets an error or crashes |
| `AuthDb.StatementsKeepSchema` | src/db/migrations/0002_refresh_tokens.sql:1-6 | every statement keeps the UNIQUE index one of the users and every `user_id` a user |
| `AuthDb.RowHasStore` | src/db/auth.rs:121-159 | every row, after any statements, is the row of a store that nothing removed since |
| `AuthDb.StoreHasRow` | src/db/auth.rs:121-159 | every store that nothing removed since has its row |
| `AuthDb.RowsAreHistory` | src/db/auth.rs:121-159 | a row is there if and only if the history stored it and neither consumed it nor deleted its owner's tokens since |
| `AuthDb.ConsumeIsHistory` | src/db/auth.rs:142-150 | a consume bound to t succeeds if and only if the history has a store with expiry after t and no removal since; lingering expired rows change nothing |
| `AuthDb.Db.CreateUser` | src/db/auth.rs:77-101 | inserts the user, or answers ALREADY_EXISTS on a taken name or id, or fails; new tables exactly |
| `AuthDb.Db.FindUserByUsername` | src/db/auth.rs:103-111 | the user of that name, or none |
| `AuthDb.Db.FindUserById` | src/db/auth.rs:113-119 | the user of that id, or none |
| `AuthDb.Db.StoreRefreshToken` | src/db/auth.rs:121-140 | inserts the row with the two clock readings; a duplicate id or an unknown user is an error without effect |
| `AuthDb.Db.ConsumeRefreshToken` | src/db/auth.rs:142-150 | deletes the row and answers true exactly if it is there and expires strictly after the bound time |
| `AuthDb.Db.DeleteRefreshTokensForUser` | src/db/auth.rs:152-159 | deletes all rows of the user and no other |
| `AuthDb.Db.LoadOrGenerateSecret` | src/db/auth.rs:161-184 | alone, returns the stored secret, storing the random one only if there was none; on error the table is unchanged |
| `Machine.StepsAreProgress` | src/auth/http.rs:189-325 | every step of a handler is progress towards its response, at most twelve of them, and runs at most one statement, the one it was waiting for |
| `Endpoints.IssueAndStore` | src/auth/http.rs:289-305 | the common end of the three handlers does to the database and answers what the step machine does, dropped at an await or not |
| `Endpoints.Register` | src/auth/http.rs:189-226 | alone on the database, the handler changes it and answers as its step machine does, on every failure and when dropped at any await, before or after the statement has run |
| `Endpoints.Login` | src/auth/http.rs:229-264 | the same for login |
| `Endpoints.Refresh` | src/auth/http.rs:267-306 | the same for refresh |
| `Endpoints.Logout` | src/auth/http.rs:310-325 | the same for logout |
| `Ledger.RecordMirrors` | src/db/auth.rs:121-159 | through every statement, the table holds the rows of the live tokens and nothing else |
| `Steps.ConsumePcOk` | src/auth/http.rs:277-281 | a consume that passes makes its request the one that spent the presented token; one that misses had a replay or came too late |
| `Steps.ResolvePcOk` | src/auth/http.rs:283-287 | the owner of a consumed token is found |
| `Steps.StorePcOk` | src/auth/http.rs:289-299 | a store that the database serves never breaks the primary or the foreign key |
| `Steps.NewBirth` | src/auth/http.rs:290-299 | a token stored is new and, in a refresh, the successor of the token its request consumed |
| `Steps.StepKeepsInv` | src/auth/http.rs:189-325 | a step of any request in any state keeps the invariant, and history only grows |
| `Steps.RunKeepsInv` | src/auth/http.rs:189-325 | so does every run of requests, servers and time |
| `Traces.ReachableTraced` | src/auth/http.rs:267-325 | in every reachable state: tokens are stored by their storers and deleted by logouts presenting a token of the same user; a refresh that has run a statement has spent its token or was refused on it; who stored a presented token was done before the request began; being done before is transitive |
| `Readings.ReachableStamped` | src/auth/http.rs:200-219 | in every reachable state: readings of a request never go back and are not of the future; no two steps draw the same id or salt; ids, salts, `iat`, `created_at` and `expires_at` are draws and readings of the request that set them |
| `Readings.NewMintStamped` | src/auth/core.rs:152-199 | a token is minted with the clock reading and the draw of the step that mints it: `iat` is now, `exp` now plus the lifetime of its kind, `jti` the draw |
| `Readings.IssuedInTime` | src/auth/core.rs:157-182 | the `iat` of every issued token lies between the first reading of its request and now |
| `Readings.RowTimes` | src/db/auth.rs:121-140 | `expires_at` is a reading of the storing request plus the refresh lifetime, `created_at` a reading, both between its beginning and now |
| `Readings.UsersApart` | src/auth/core.rs:128-134 | no two users share a salt, and `created_at` of a user is a reading of the registration |
| `Answers.RequestsAreAnswered` | src/auth/http.rs:189-325 | in every reachable state: a registration that ran answers EMPTY_USERNAME exactly for the empty name and WEAK_PASSWORD exactly for fewer than 8 bytes, before any statement; a refresh or logout answers TOKEN_INVALID, TOKEN_EXPIRED or WRONG_KIND exactly by secret, expiry, leeway and kind at its first reading, before any statement; a login rejects only as INVALID_CREDENTIALS or on a failure; a logout that has deleted did so for the user of its token and answers success |
| `Answers.UsersAreChecked` | src/auth/http.rs:193-198 | every user has a name, and a password of at least 8 bytes |
| `Answers.CreateDecides` | src/db/auth.rs:77-101 | a served insert creates exactly the user of the call if nobody has the name, and answers ALREADY_EXISTS without effect if somebody has |
| `Answers.LoginDecides` | src/auth/http.rs:233-245 | a served login goes on, as that user, if and only if some user has its name and password; an unknown name and a wrong password both answer INVALID_CREDENTIALS |
| `Answers.LookupDecides` | src/auth/http.rs:283-287 | a refresh that has consumed goes on as the user its token names |
| `Answers.StoreDecides` | src/db/auth.rs:121-140 | a served store adds exactly the row it was bound to |
| `Answers.DeleteDecides` | src/auth/http.rs:320-324 | a served logout leaves exactly the rows of all other users |
| `Answers.FinishDecides` | src/auth/http.rs:301-305 | a handler that has stored answers the pair it issued under its server's secret, one that has deleted answers success |
| `Answers.FailureDecides` | src/auth/http.rs:189-325 | a failing step answers PASSWORD_HASH_FAILED, ENCODE_FAILED or a database error by what failed, no other step does, and neither failing nor being dropped changes the tables, and only a drop drops |
| `Answers.ExtractorDecides` | src/auth/http.rs:109-119 | at every built server and later time, a delivered token is accepted if and only if it is an access token within expiry plus leeway; else TOKEN_EXPIRED past that time and WRONG_KIND before; a token of another secret gets TOKEN_INVALID |
| `Answers.AccessWorks` | src/auth/http.rs:109-119 | the access token a request answers is accepted at every built server until the beginning of the request plus the access lifetime of its server |
| `Answers.LifetimesAsGiven` | src/server.rs:331-344 | tokens issued by requests of a server live as long as it was launched with, or 900 and 604800 seconds |
| `Sessions.SingleUse` | src/auth/http.rs:277-281 | of all refreshes presenting one token, in any order, at most one passes the consume; of any two that have run a statement, one was told INVALID_REFRESH_TOKEN after that one statement, which affected no row |
| `Sessions.ConsumedOnce` | src/db/auth.rs:142-150 | a request has spent a token if and only if the log has its successful consume of it, and the log never has two for one token, even if the first consumer failed or was dropped |
| `Sessions.ConsumeDecides` | src/auth/http.rs:277-281 | in any reachable state a consume makes the token its request's own exactly if the token is live and the bound time before its expiry; otherwise, a replay or late, the answer is INVALID_REFRESH_TOKEN and nothing changes |
| `Sessions.OneSuccessor` | src/auth/http.rs:277-299 | every token has at most one successor |
| `Sessions.OneAtDepth` | src/auth/http.rs:277-299 | a session has at most one token at each number of rotations |
| `Sessions.OneHolder` | src/auth/http.rs:277-299 | session linearity: a session has at most one holder, a row of the table or a refresh that has consumed and not yet stored |
| `Sessions.Conservation` | src/auth/http.rs:211-299 | per user, sign-in stores plus refresh stores = rows, expired ones included, + consumed + revoked; refresh stores never exceed consumes; rows never exceed sign-in stores minus revoked |
| `Revocation.DeleteRevokes` | src/db/auth.rs:152-159 | the delete of a logout leaves no live token of its user |
| `Revocation.TracesToNewStart` | src/auth/http.rs:310-325 | every token of the user stored after the delete descends by rotations from one stored by a request that was opening a session at the delete, or by a login |
| `Revocation.LogoutIsExact` | src/auth/http.rs:310-325 | exact revocation over every continuation: older tokens are never live or consumed again, later ones have such a start, other users' rows stay |
| `Finality.StoreComes` | src/auth/http.rs:283-299 | from any state that satisfies the invariant, a request that is opening a session can go on to store its token |
| `Finality.LogoutIsFinal` | src/auth/http.rs:308-325 | in every continuation tokens of the user come only of logins that pass their check later, if and only if at the delete no request of the user was between opening a session and its store |
| `Races.RefreshOutlivesLogout` | src/auth/http.rs:308-325 | from any reachable state with a working token, a refresh and a logout with it lead to a logout that is not final |
| `Races.RegistrationWorks` | src/auth/http.rs:189-226 | from any reachable state with a built server and a free name, a registration can go through, and its refresh token and access token work |
| `Identities.ChainOf` | src/auth/http.rs:189-306 | whoever is entitled to a session is so by a finite chain of consumed tokens from a sign-in |
| `Identities.Provenance` | src/auth/http.rs:93-120 | an accepted access token was issued for its `sub`, with the access lifetime, by a request that a finite chain of rotations entitles, each token of it consumed by the request that stored the next, from a registration or a login with that user's password; `me` (`src/auth/http.rs:329-334`) answers what a lookup would |
| `Identities.OneWinner` | src/auth/http.rs:200-207 | of all registrations of one name, at most one creates a user, and one only |
| `Identities.LoginIffWinnersPassword` | src/auth/http.rs:233-245 | from then on the winner's row never changes and a login under the name passes its check if and only if the password is the winner's, even if the winner was dropped |
| `Identities.RowsMatchClaims` | src/auth/core.rs:177-199 | a row has one issued refresh token: its id, user and name; iat + ttl = exp <= expires_at <= created_at + ttl while that lifetime is in range; every delivered token of that id is it |
| `Identities.PassedInTime` | src/auth/http.rs:271-281 | a refresh that passed was verified within exp plus leeway and consumed at a reading strictly before expires_at |
| `Identities.NeverRefusedEarly` | src/db/auth.rs:142-150 | the database never refuses as expired a live row whose consume is bound to a time before exp |
| `Identities.ReferencesResolve` | src/auth/http.rs:283-299 | rows and issued tokens name users; USER_NOT_FOUND and key violations at a store are unreachable |
| `Identities.NotRefused` | src/auth/http.rs:277-281 | a client that alone presents a delivered token before its expiry, and is not logged out, is not refused as a replay or late |
| `Identities.SessionContinues` | src/auth/http.rs:267-306 | such a client, presenting each time the latest token, has every refresh succeed for any number of rotations, whatever else runs, and stays in one session |
| `History.RunLogged` | src/db/auth.rs:76-159 | over every run the tables and the ledger are those of the logged statements, each with its true reply |
| `History.ConsumeAgreesWithLog` | src/db/auth.rs:142-150 | in every reachable state a consume bound to t succeeds if and only if the log has a store with expiry after t, and after it no successful consume and no delete for the owner |
| `Serial.StoreCommutes` | src/db/auth.rs:121-159 | storing a new token commutes with every statement that is not on that token or on all tokens of its user |
| `Serial.SerialCommutes` | src/db/auth.rs:121-159 | so it commutes with whole serial runs of such requests, responses included |
| `Serial.ReaderMoves` | src/db/auth.rs:103-119 | a request that has only read so far can as well have run later |
| `SerialOrder.RunsAreSerial` | src/auth/http.rs:189-325 | every run whose registrations and refreshes no logout of their user interrupts has an order of its requests, respecting which finished before which began, in which one after the other they give the same responses, run the same statements and leave the same tables |
| `Outlived.AfterLogout` | src/db/auth.rs:142-159 | in a serial order, a token whose storer comes no later than a logout of its user is not in the table at the end, nor consumed by anyone after the logout |
| `Outlived.SerialIsNotOutlived` | src/auth/http.rs:267-325 | in a serial order that respects which requests were finished when others began, no session outlives a logout of its user that it was signed in before |
| `Outlived.OutlivedIsNotSerial` | src/auth/http.rs:267-325 | a reachable state in which a session outlives such a logout, with a row left or a consume by a refresh begun after the logout, is that of no serial run |
| `Races.RaceIsNotSerial` | src/auth/http.rs:267-325 | from any reachable state with a working token, a refresh and a logout with it can end in a state of no serial run |
| `Races.SomeRunIsNotSerial` | src/auth/http.rs:267-325 | there is such a run from the start, with one server and one registration |
| `Server.Build` | src/server.rs:331-344 | the routes and the layer of a built server hold the same configuration: the given lifetimes or else 900 and 604800 seconds, the leeway, and the stored secret; on error nothing is built |
| `Server.BuiltLifetimes` | src/server.rs:331-337 | so does every built server of a run |
| `Server.OneSecret` | src/server.rs:339-340 | servers built before or during any run, through races, crashes and restarts, have one secret, and a built server keeps its configuration |
| `Server.VerifiesEverywhere` | src/auth/core.rs:205-216 | a token delivered by any server verifies at every server built before or later, exactly until its expiry plus leeway |
| `Profiles.AppDb.FindOrCreateProfile` | consumer/src/db/mod.rs:65-105 | alone, returns the row of the user, creating it only if there was none; on error nothing changes |
| `Profiles.MoveKeepsWorld` | consumer/src/lib.rs:23-35 | every action of the auth protocol and every statement of a visit keeps: each profile has the name its user has in the auth database |
| `Profiles.VisitsAreServed` | consumer/src/lib.rs:23-35 | a delivered token gets through to the profiles if and only if it is an access token within expiry and leeway |
| `Profiles.ServeDecides` | consumer/src/db/mod.rs:65-105 | the SELECT of a visit returns the row or binds a profile of the visitor with the reading; the INSERT adds it unless a row came first |
| `Profiles.ProfilesAgree` | consumer/src/db/mod.rs:65-105 | over any interleaving of first accesses, all answers for a user, now or later, are one profile, which is the row for good and has the user's name in the auth database |

## Left out

- Argon2, HMAC, JWT encoding, hex, UUIDs and OS randomness: foreign code, kept as the assumptions above.
- The error path of `verify_password` for a malformed stored hash: hashes in the table come from `hash_password`.
- JSON bodies, the `Authorization` header and the `Bearer ` prefix: the model starts from an extracted token, and so has no missing-header or missing-layer error.
- Error and response envelopes (`src/error.rs`, `src/response.rs`): only the names of the errors remain, all database failures being one.
- axum and tower plumbing, request ids, tracing, the panic hook and serving.
- Connection pools, migrations and file creation: the schema is a set of constraints on the maps, and the UNIQUE index of `users.username` is a map of its own.
- Builder setters, command line, Docker files.
- Targets where `usize` is narrower than 64 bits.
- `Profiles.ProfilesAgree`: the clock reading of a profile is any number, because only agreement on it matters.
- The column `created_at` of users is stored but nothing reads it.
- `SerialOrder.RunsAreSerial`: the condition is sufficient, and that of `Outlived.OutlivedIsNotSerial` is sufficient for the opposite. For the runs in between, where a logout interrupts a session whose login had not finished when the logout began, no condition is given: it depends on which logout must have withdrawn which other tokens.
