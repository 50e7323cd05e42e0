# Token rotation and role guards of a NestJS authentication module

This project models, in Dafny, the core of the authentication module of a NestJS
service: the refresh-token rotation performed by `AuthService` and the three role
guards `OnlyAdmin`, `OnlySuperAdmin` and `AdminAndSuperAdmin`.

`AuthService` keeps its only state in a cache: `AUTH_CACHE_PREFIX + refreshId` maps
to the hex SHA-256 fingerprint of the access token issued together with that refresh
id. `login` signs an access token for a known user and writes a record for a fresh
refresh id. `refreshAccessToken` looks the presented refresh id up, compares the
record with the fingerprint of the presented access token, and on a match re-signs
the decoded payload with `iat`/`exp` removed, writes a record for a new refresh id and
then deletes the old record. Both failures throw the same `JWT_EXPIRED`.

The model:

- `wrappers.dfy` (`Wrappers`): `Option` and `Result`.
- `jwt.dfy` (`Jwt`): the signing library. A token is either `Signed(claims, signature)`
  or `Malformed(raw)`. `Sign` adds `iat = now` and `exp = now + expiresIn` and signs
  with an abstract MAC. `Decode` reads the claims without any check. `Verify` checks
  the signature and then the expiry. The closed `UserRole` enum is `User | Admin | SuperAdmin`.
- `cache.dfy` (`CacheStore`): the cache manager as a class `Cache` with a map of
  entries and a ghost log of every write and delete. Its invariant is that the entries
  are the replay (`Apply`) of the log, so the order of writes is part of the state.
  `Expire` stands for a record's TTL running out. The log records it as a `Lapse`, so a TTL lapse can be told apart from a `del`.
- `auth.dfy` (`Auth`): the class `AuthService` with methods `Login`,
  `RefreshAccessToken` and `GenerateRefreshToken`, which run the steps in the source's
  order against the cache. Each is proved to produce the reply and the cache changes
  that a pure specification function (`LoginSpec`, `RefreshSpec`, `RefreshRecordOps`)
  gives. `GenerateAccessToken`, `DecodeAccessToken` and `VerifyAccessToken` are
  functions.
- `sessions.dfy` (`Sessions`): runs of many requests (logins, refreshes, TTL lapses)
  and the lemmas about whole runs.
- `guards.dfy` (`RolesGuard`): the three `canActivate` decisions as functions of the
  `authorization` header.

Abstractions:

- SHA-256 is the `hash` field of `Config`. It is a deterministic function into
  64-character strings and is otherwise unknown. No collision-freedom is assumed.
- `uuidv4()` is the `newId` argument of each operation. Where a property needs a fresh
  id, the lemma states that as a hypothesis: `newId != refreshId`, or "no later request
  mints this id".
- The clock is the `now` argument, in seconds.
- The user directory is a map from email to user record. `checkUserEmailAddressExisted`
  is membership in it, and `findUserByEmailAddress` is the lookup.

Behaviour worth knowing, proved on the model:

- The error `EMAIL_IS_ALREADY_TAKEN` is thrown when the email is not known to the
  directory. The model follows the code.
- `login` reads only the email of the login request.
- The source tests the cache result for falsiness. An empty stored string therefore
  counts as absent. Fingerprints are never empty, so this never rejects a genuine
  record.
- A decoded payload of `null` (a malformed token whose fingerprint matched) makes
  `delete oldPayload.iat` throw a `TypeError`. This is `PayloadUnreadable` in the model.
  It happens before any cache change.
- Signing is deterministic and `iat` counts seconds. A refresh in the same second as
  the login therefore returns the same access token (`SameSecondRotationRepeatsToken`).
  The old access token is then accepted with the new refresh id. So the expectation
  that a rotated access token always differs from its predecessor does not hold for
  the code as written.
- The guards read the role claim without verifying the token. A forged or expired
  token with an admin role claim passes them (`GuardsAcceptUnverifiedTokens`).

## Model

| member | source | states |
|---|---|---|
| Auth.LoginSpec | src/modules/auth/auth.service.ts:25-45 | fails with `EmailIsAlreadyTaken` exactly when the email is unknown, and then changes nothing; succeeds exactly when the email is known, and then returns the user's id/email/role, a token decoding to the user's id and role with fresh `iat`/`exp`, and the new refresh id, and makes exactly one change: the fingerprint of that token under the new key |
| Auth.RefreshSpec | src/modules/auth/auth.service.ts:47-67 | fails with `JwtExpired` exactly when the record is absent or differs from the presented token's fingerprint, and then changes nothing; fails with `PayloadUnreadable` exactly when the fingerprint matches a malformed token; succeeds exactly when the record is the fingerprint of a well-formed token; on success the new token carries the old payload with fresh `iat`/`exp`, and the changes are the new record written first and the old record deleted after it |
| Auth.RefreshRecordOps | src/modules/auth/auth.service.ts:75-85 | the record write maps the new key to the fingerprint of the access token on any store and touches no other key |
| Auth.CacheKeyInjective | src/modules/auth/auth.service.ts:50 | distinct refresh ids have distinct cache keys under the fixed prefix |
| Auth.AuthService.GenerateAccessToken | src/modules/auth/auth.service.ts:69-73 | the token decodes back to the given payload with `iat = now` and `exp = now + expiresIn`, and verifies during its lifetime |
| Auth.AuthService.DecodeAccessToken | src/modules/auth/auth.service.ts:93-95 | a well-formed token yields its claims whatever its signature; a malformed one yields nothing |
| Auth.AuthService.VerifyAccessToken | src/modules/auth/auth.service.ts:88-90 | succeeds exactly when the token is well formed, its signature is genuine and it has not expired, and then yields the decoded claims |
| Auth.AuthService.GenerateRefreshToken | src/modules/auth/auth.service.ts:75-86 | returns the new id; the cache maps its key to the fingerprint of the access token, no other entry changes, and the log gains that one write |
| Auth.AuthService.Login | src/modules/auth/auth.service.ts:25-45 | reply, cache log and cache entries are those `LoginSpec` specifies |
| Auth.AuthService.RefreshAccessToken | src/modules/auth/auth.service.ts:47-67 | reply, cache log (set before del) and cache entries are those `RefreshSpec` specifies |
| Auth.AuthService.ExpireRefreshToken | src/modules/auth/auth.service.ts:78-82 | the TTL lapse of a record removes exactly that record |
| CacheStore.Apply | src/modules/auth/auth.service.ts:60-61 | replaying a sequence of cache changes leaves every key that no change mentions as it was |
| CacheStore.ApplySnoc | src/modules/auth/auth.service.ts:60-61 | one more change acts on the store the earlier changes left, so the cache is always the replay of its log |
| Sessions.StepKeepsRetired | src/modules/auth/auth.service.ts:49-52 | a request that does not mint an id cannot create a record for it, and a refresh with an id that has no record fails with `JwtExpired` |
| Sessions.RetiredIdStaysRetired | src/modules/auth/auth.service.ts:49-52 | once an id has no record, every later refresh presenting it fails with `JwtExpired`, in any run that does not mint it again (covers TTL lapse too) |
| Sessions.AtMostOneRotationPerId | src/modules/auth/auth.service.ts:60-61 | of two refreshes presenting the same id in one run of requests handled one after another, at most one succeeds, given uuid uniqueness |
| Sessions.LoginThenRefreshSucceeds | src/modules/auth/auth.service.ts:34-35 | a login's pair refreshes at once; the new token carries the user's id and role; the old key is gone and the new key holds the new token's fingerprint |
| Sessions.RotatedPairRefreshesAgain | src/modules/auth/auth.service.ts:59-64 | the pair a refresh returns, with a new id distinct from the old one, is accepted by the next refresh, which keeps the same user id and role |
| Sessions.CreateBeforeDelete | src/modules/auth/auth.service.ts:60-61 | after the write alone both the old and new records are live; after both changes only the new one is, and no other key changed |
| Sessions.RefreshWithOwnIdLosesSession | src/modules/auth/auth.service.ts:60-61 | if the new id equalled the presented one, the delete would remove the record just written and the returned pair would be refused |
| Sessions.SameSecondRotationRepeatsToken | src/modules/auth/auth.service.ts:56-59 | a refresh in the login's second re-issues the identical access token, which is then accepted with the new refresh id |
| RolesGuard.OnlyAdminCanActivate | src/modules/auth/guards/roles.guard.ts:10-17 | never returns false; allows exactly the `ADMIN` role claim; any other role is `GeneralForbiden`; no parsable token is `InvalidToken` |
| RolesGuard.OnlySuperAdminCanActivate | src/modules/auth/guards/roles.guard.ts:22-29 | never returns false; allows exactly the `SUPER_ADMIN` role claim; any other role is `GeneralForbiden`; no parsable token is `InvalidToken` |
| RolesGuard.AdminAndSuperAdminCanActivate | src/modules/auth/guards/roles.guard.ts:34-41 | never returns false; allows exactly the `ADMIN` and `SUPER_ADMIN` role claims; `USER` is `GeneralForbiden` |
| RolesGuard.AdminAndSuperAdminIsUnion | src/modules/auth/guards/roles.guard.ts:39-40 | the combined guard allows exactly when one of the single-role guards allows |
| RolesGuard.DecisionDependsOnlyOnRole | src/modules/auth/guards/roles.guard.ts:13-15 | two tokens with the same role claim get the same decision from every guard, whatever their user id, times or signature |
| RolesGuard.GuardsAcceptUnverifiedTokens | src/modules/auth/guards/roles.guard.ts:13 | a token that verification refuses, whether forged or expired, still passes the guards on its role claim |

## Left out

- SHA-256, the JWT signature (HMAC) and `uuidv4()`: these are foreign cryptographic and random calls. They are an abstract `hash` function, an abstract `mac` function and a `newId` argument.
- Token serialisation (base64url JSON): a token is a structured value, `Signed(claims, signature)` or `Malformed(raw)`. Three consequences follow:
  - `hash` is taken over the parsed token, not over its string. Two different strings with the same claims and signature get one fingerprint here, but two different SHA-256 values in the source.
  - One `Decode` stands for two libraries. `jsonwebtoken`'s decode (used by refresh) and `jwt-decode` (used by the guards) accept different strings; for example, `jwt-decode` reads a header that still carries a "Bearer " prefix.
  - The cache's `get`, `set` and `del` always succeed. A rejected cache promise is not modelled.
- Claims other than `userId`, `role`, `iat` and `exp`, and role claims outside the `UserRole` enum. Such a role would fail every `===` test, and the guards would refuse it with `GENERAL_FORBIDEN`.
- TTL expiry of cache records: the TTL value is passed to the cache as in the source but is not counted down. Its lapse is the explicit `Expire`/`ExpireRefreshToken` step.
- The user directory's database: the directory is a fixed map. The two lookups in `login` are assumed to agree.
- `async`/`await` and concurrent refreshes: calls run one after another. An atomic cache would not make rotation single-use under concurrency. The `get` at auth.service.ts line 49 and the `del` at line 61 are separate awaited calls. Two refreshes of the same pair can therefore both read the record before either deletes it. Both would then write a new record and both would succeed. `Sessions.AtMostOneRotationPerId` covers only requests handled one after another.
- How a guard reads the header from the HTTP request context: the guard receives the header value.
- The HTTP controller, the pagination interceptor, the constants file and the shop schema: they only forward calls or declare data, with no logic to model.
- The value of `AUTH_CACHE_PREFIX`, the access-token lifetime and the refresh TTL are not part of this model. They are fields of `Config` and `Signer`.
