# Ghostwriter sign-in and authorization core, in Dafny

This project models the server core of a small web app for a decentralized social network.
In the app, teams pool their members' posting ("casting") rights: a teammate may cast as any
account that has granted the team that right. The model covers:

- **Authorization gates** (`Utils`): `requireUserBelongsToTeam` and `requireCanCastAsAuthor`.
  They are read-only decisions over the teammate and grant tables. Each returns a record or
  aborts with a redirect to `/403`, shown here as `Gate.Redirect`.
- **Two sign-in strategies** (`FarcasterAuth`, `NeynarAuth`). Each is an early-return chain:
  1. check the query parameters;
  2. ask an external verifier;
  3. call a store-updating callback at most once;
  4. end in a user, a failure with a message, or an error the verifier threw.
  Ghost results record every external call, so "never calls X when Y" is stated in the contracts.
- **Find-or-create callbacks** (`Auth`): `verifyFarcasterUser` and the signer callback. Each is
  specified by a function on the users table (`FarcasterUpsert`, `NeynarUpsert`). Lemmas prove
  both are idempotent, and the contracts state that no other user row changes.
- **Session cookie settings and flash responses** (`Auth.SessionCookie`, `Utils.SuccessResponse`,
  `Utils.ErrorResponse`).
- **Pure string helpers** (`Utils`):
  - validation-error formatting;
  - `formatHash`;
  - the two unanchored pattern checks, each written as a scanner and proved equal to a "the
    pattern occurs at some position" predicate.
- **Read-through caching and cursor pagination** (`Neynar`, `Utils.GetSetCache`, `Caching`).
  A paged endpoint is a finite map from request cursor to page. `WalkPages` is the reference
  walk: the pages fetched in order, within a fuel bound. The loops are proved against it.

The database is in-memory tables (`Store.Database`): users by id, teams by id, and the teammate
and grant relations as sets of pairs. Every external service is a parameter giving its answers.

The model follows the code where its behaviour is easy to misread:
- The signer strategy compares `String(signerStatus.fid)` with the query's `fid` as strings. It
  does not compare normalized numbers. `NeynarAuth.LeadingZeroFidRejected` shows that `"0123"` is
  rejected for account 123.
- The signature strategy's callback never refreshes the username or avatar of an existing user.
  The signer callback rewrites them only when the stored `signerUuid` differs.
- `requireCanCastAsAuthor` checks only the caller's membership and the author's grant. It does
  not check the author's `signerUuid`.
- The session cookie has one secret, `SESSION_SECRET` or the fallback `"STRONG_SECRET"`. There is
  no rotation list.

## Model

| member | source | states |
|---|---|---|
| `Utils.RequireUserBelongsToTeam` | app/lib/utils.server.ts:36-65 | Passes iff the team exists and has a teammate row for the user, and then returns that team. Otherwise it redirects to `/403`. |
| `Utils.RequireCanCastAsAuthor` | app/lib/utils.server.ts:19-34 | Passes iff the membership gate passes and `Grant(authorId, teamId)` exists. The grant returned is in the table, with `userId = authorId` and `teamId = teamId`. Otherwise it redirects to `/403`. |
| `Utils.MissingTeamIsForbidden` | app/lib/utils.server.ts:36-65 | A missing team aborts both gates exactly as a non-member does. |
| `Utils.NonMemberRejectedWhateverGrants` | app/lib/utils.server.ts:19-34 | A non-member is rejected by the cast gate for every possible grant table. |
| `Utils.CastGateIgnoresAuthorRecord` | app/lib/utils.server.ts:22-33 | The cast gate gives the same answer whatever the users table holds and whether or not an author other than the caller is a teammate. So no signer is checked. |
| `Utils.SuccessResponse` | app/lib/utils.server.ts:85-117 | Flashes `{id, "success", message}` into the passed session, or the request's session when none is passed. Leaves the session values alone. Returns the message and data with status `status \|\| 200` and the committed session as `Set-Cookie`. |
| `Utils.ErrorResponse` | app/lib/utils.server.ts:119-136 | Flashes `{id, "error", message}` into the request's session. Returns the message with status `status \|\| 400` and the committed session as `Set-Cookie`. |
| `Utils.StatusOr` | app/lib/utils.server.ts:111 | A given non-zero status is kept. A missing or zero status becomes the default. |
| `Utils.FormatZodErrorShowsFirstIssue` | app/lib/utils.server.ts:145-156 | The result is `""` iff there are no issues. Otherwise it is the first issue alone, and later issues make no difference. It ends with `": "` and that issue's message. When the path is non-empty and no key contains a dot, splitting the text before `": "` on dots gives back that issue's path. |
| `Utils.FormatZodIssuePathRoundTrip` | app/lib/utils.server.ts:138-143 | Splitting on `.` what comes before `": " + message` gives back the rendered path elements, when the path is non-empty and no key contains a dot. |
| `Utils.FormatHash` | app/lib/utils.server.ts:162-164 | For `\|s\| >= 3` the result has length 9: the first three characters, `...`, then the last three. For shorter strings it is `s + "..." + s`. |
| `Utils.FormatHashIdempotent` | app/lib/utils.server.ts:162-164 | Formatting an already formatted hash (input of length at least 3) changes nothing. |
| `Utils.IsCastHashSpec` | app/lib/utils.server.ts:166-168 | `isCastHash` holds iff `0x` followed by 40 hex digits starts at some position. |
| `Utils.CastHashSurvivesSurroundingText` | app/lib/utils.server.ts:166-168 | Adding any prefix and suffix keeps `isCastHash` true. |
| `Utils.IsWarpcastCastUrlSpec` | app/lib/utils.server.ts:170-172 | `isWarpcastCastUrl` holds iff, at some position, there is: `https://warpcast`, any non-line-terminator character, `com/`, one or more alphanumerics, `/0x`, then 8 hex digits. |
| `Utils.WarpcastUrlShapeAccepted` | app/lib/utils.server.ts:170-172 | Every URL of that shape is accepted, whatever non-line-terminator character of the Basic Multilingual Plane stands where the unescaped dot is. Such a character is one UTF-16 code unit, so the source accepts these URLs too. |
| `Utils.GetSetCache` | app/lib/utils.server.ts:174-189 | On a truthy cached value: returns it, `get` is never called, and the cache is unchanged. Otherwise: `get` is called once and its result returned. A success is stored under `key` with TTL `ttlSeconds ?? 0`. A thrown error leaves the cache alone. |
| `Auth.SessionCookie` | app/lib/auth.server.ts:8-17 | The cookie is `_session`, path `/`, httpOnly, sameSite lax. It has exactly one secret: a configured non-empty `SESSION_SECRET`, otherwise `"STRONG_SECRET"`. It is secure iff `NODE_ENV` is `production`. |
| `Auth.DisplayName` | app/lib/auth.server.ts:78 | A non-empty username becomes the created user's name. The name equals the fid exactly when the username is missing or empty, or is the fid itself. |
| `Auth.FarcasterUpsert` | app/lib/auth.server.ts:67-85 | Afterwards the user with id `fid` exists and is the one returned. An existing user is returned unchanged and the table is not written. A new user gets id `fid`, the display name, avatar `pfpUrl` and no signer. Every other row is unchanged. |
| `Auth.FarcasterUpsertIdempotent` | app/lib/auth.server.ts:67-85 | A second call with the same arguments returns the same user and leaves the table as the first call left it. |
| `Auth.VerifyFarcasterUser` | app/lib/auth.server.ts:67-85 | The store becomes `FarcasterUpsert` of the old users table, the other tables stay unchanged, and the result is the upserted user. A store error is returned and nothing is written. |
| `Auth.NeynarUpsert` | app/lib/auth.server.ts:26-55 | Afterwards the user with id `String(fid)` exists, carries the given `signerUuid`, and is the one returned. A user already holding that signer is returned with no write. Otherwise the row is written with the profile's username, `pfp_url` and the signer. Every other row is unchanged. |
| `Auth.NeynarUpsertIdempotent` | app/lib/auth.server.ts:26-55 | A second call with the same profile and signer finds the row the first one wrote and writes nothing. |
| `Auth.VerifyNeynarUser` | app/lib/auth.server.ts:26-55 | The store becomes `NeynarUpsert` of the old users table, the other tables stay unchanged, and the result is the upserted user. A store error is returned and nothing is written. |
| `FarcasterAuth.Domain` | app/lib/auth/farcaster-strategy.ts:34 | The domain is the longest colon-free prefix of the host. It is the whole host when the host has no port. |
| `FarcasterAuth.Authenticate` | app/lib/auth/farcaster-strategy.ts:13-65 | A missing or empty `message`, `signature` or `nonce` fails with "Missing message, signature or nonce", with no service call, no callback call and no write. Otherwise the service is called once with the host's domain. A service rejection fails with "Invalid signature" and the service's error, with no callback call. On success the callback is called once with `fid.toString()` and the query's `username` and `pfpUrl`. A callback error fails with its message. Otherwise the result is exactly the callback's user. |
| `FarcasterAuth.CallbackIdIsVerifiedFid` | app/lib/auth/farcaster-strategy.ts:44-50 | The user id handed to the callback reads back as the verified fid. |
| `FarcasterAuth.RepeatedSignInSameUser` | app/lib/auth/farcaster-strategy.ts:44-50 | Two sign-ins verified for the same fid land on the same user, and the second leaves the users table unchanged. |
| `NeynarAuth.FidString` | app/lib/auth/neynar-strategy.ts:27 | `String(fid)` is `"undefined"` for a missing fid. Otherwise it is a digit string that reads back as the fid. |
| `NeynarAuth.Authenticate` | app/lib/auth/neynar-strategy.ts:13-55 | A missing or empty `signerUuid` or `fid` fails with "Missing signer uuid or fid", with no API call. A signer that is not approved, or whose `String(fid)` differs from the query's `fid`, fails with "Credentials are invalid. Sign in again.", with no bulk fetch. A bulk fetch that throws or returns no users fails with "User with fid <fid> not found", with no callback call. Otherwise the callback is called once with the first user and the query's `signerUuid`. A callback error fails with its message. Otherwise the result is exactly the callback's user. |
| `NeynarAuth.LeadingZeroFidRejected` | app/lib/auth/neynar-strategy.ts:27 | A claimed fid with a leading zero and at least two characters is never accepted, whatever the signer. |
| `NeynarAuth.AcceptedFidDenotesSignerFid` | app/lib/auth/neynar-strategy.ts:27-32 | An accepted all-digit claim means the signer has a fid, and the claim read as a number equals it. |
| `NeynarAuth.AcceptanceIsUnambiguous` | app/lib/auth/neynar-strategy.ts:27 | Two signers accepted for the same claimed fid have the same fid. |
| `Neynar.ChannelTtl` | app/lib/neynar.server.ts:33 | The TTL is 0 in development, otherwise 86400 seconds. |
| `Neynar.UserTtl` | app/lib/neynar.server.ts:47 | The TTL is 0 in development, otherwise 3600 seconds. |
| `Neynar.GetChannel` | app/lib/neynar.server.ts:24-36 | On a hit under `channel:<name>`: returns the cached channel with no API call and an unchanged cache. Otherwise: one lookup, whose channel is cached for `ChannelTtl` and returned. A thrown lookup leaves the cache alone. |
| `Neynar.GetUser` | app/lib/neynar.server.ts:38-50 | On a hit under `user:<fid>`: returns the cached profile with no fetch. Otherwise: one bulk fetch; its first user, or `undefined` when there is none, is cached for `UserTtl` and returned. |
| `Neynar.DrainPages` | app/lib/neynar.server.ts:60-72 | The `while (cursor !== null)` loop returns the concatenation of the items of every page of the reference walk, in fetch order. A fetch that throws ends it with that request's cursor. |
| `Neynar.PageChannelCasts` | app/lib/neynar.server.ts:10-22 | Starting from an undefined cursor, yields exactly the pages of the walk in order, stopping after the page whose next cursor is null. A thrown fetch ends it after the pages already yielded. |
| `Neynar.PageReactionsDeep` | app/lib/neynar.server.ts:52-75 | An entry under `reactions:<hash>` is returned as it is; even an empty list is a hit. Otherwise the items of every page up to a null cursor are returned and cached with no TTL. |
| `Neynar.PageFollowersDeep` | app/lib/neynar.server.ts:77-100 | The same under `followers:<fid>`, with the loop that also stops when the next cursor repeats the current one. |
| `Neynar.WalkFuelIrrelevant` | app/lib/neynar.server.ts:63 | Once the walk ends within a bound, any larger bound gives the same walk, so results do not depend on the bound chosen. |
| `Neynar.UntilNullFollowsCursors` | app/lib/neynar.server.ts:10-22 | A walk that ends by null starts with the first request's page. Each page's next cursor fetches the page after it. Only the last page's next cursor is null. |
| `Neynar.UntilNullLoopsOnRepeatedCursor` | app/lib/neynar.server.ts:63-71 | A page that names its own cursor as next makes the null-only loop refetch it forever. |
| `Neynar.FollowersStopOnRepeatedCursor` | app/lib/neynar.server.ts:88-96 | The followers loop stops on such a page and keeps that page's users. |
| `Neynar.FollowersEmptyCursorRefetchesFirstPage` | app/lib/neynar.server.ts:89-95 | Because of `cursor \|\| undefined`, a first page whose next cursor is `""` is fetched twice, and its users are collected twice. |

## Left out

- URL handling: the query string arrives as a map from parameter name to its value, with a missing key for an absent parameter. How `URLSearchParams` resolves repeated parameters is not modelled. The configured application URL arrives as its `host` part.
- Cryptographic verification of the sign-in message, the signer lookup, the bulk profile fetch and every other API call: each is a parameter giving the service's answers. A `Failure` answer is an error the service throws.
- The authenticator's framework steps: `success` storing the user in the session, and the error object `failure` throws under `throwOnError`. The model ends with `Authenticated` or `Failed(message, cause)`. `requireUser` and `getSharedEnv` are not modelled either.
- Cookie signing and encryption. The flash slot is modelled up to `commitSession`. Reading a flash once in a later request is framework behaviour and is not modelled.
- `uuid()`: the fresh id is a parameter; its uniqueness is not modelled.
- Database failures: one optional error per request, raised before any write. Partial writes and unique-key races between concurrent requests are not modelled.
- Prisma `include`: `Utils.RequireUserBelongsToTeam` returns the team row without the teammates and grants the source loads with it.
- Row fields the core never reads (invite codes, timestamps, row ids) and API page sizes (`limit`).
- Cache expiry by the clock: `Caching.Cache.entries` holds the live entries, each with the TTL it was set with. Duplicate fills by concurrent requests are not modelled, since the model is sequential.
- `Neynar.GetUser`: the numeric coercion `+fid` is folded into the bulk-fetch answer, which is given the fid as written.
- `Neynar.DrainPages`, `Neynar.PageChannelCasts`: require that the page chain ends, at a null cursor, a repeated cursor or a failing fetch, within a ghost bound. On a cyclic chain the source loops forever and returns nothing, and the model does not cover that case.
- `Neynar.PageReactionsDeep`, `Neynar.PageFollowersDeep`: on a cache miss they require the same of the page chain, for the same reason. A cache hit never touches the endpoint, so it places no requirement on the chain.
- `Utils.IsWarpcastCastUrl`: a Dafny string is a sequence of Unicode scalar values, while JavaScript strings and an unflagged regex work on UTF-16 code units. An astral character, such as an emoji, in place of the unescaped dot is one character to the model but two code units to the regex's `.`. The model accepts such a URL, which the source rejects. `Utils.IsWarpcastCastUrlSpec` carries this difference; `Utils.WarpcastUrlShapeAccepted` is stated only for characters of the Basic Multilingual Plane.
- `Utils.FormatHash`: `slice` counts UTF-16 code units in the source and characters in the model. The two agree only on hashes without astral characters, which holds for hex hashes.
- `Strings.DecimalString`: renders every natural number in plain decimal. JavaScript's `String(n)` switches to exponent notation from 1e21 on and loses precision above 2^53. Fids are far below both limits, so `NeynarAuth.FidString` and `FarcasterAuth.CallbackArgs` do not model those renderings.
- `Neynar.PageChannelCasts`: the generator is drained completely. A consumer that stops early, or lazy fetching, is not modelled.
- Sentry reporting, `console.error`, `sleep`, and the React routes and root component.
