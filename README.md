# Refresh-token route of node-graphql-jwt, in Dafny

The backend of node-graphql-jwt hands out access tokens and keeps a refresh
token in a cookie named `jwt`. The cookie's attributes and the tokens'
lifetimes are set by helpers that are not part of this model. The backend's
`POST /refresh_token` route trades that cookie for a new access token. It
checks four things in order:

1. the cookie is there;
2. the token verifies under the refresh secret;
3. the user named in the token still exists;
4. the token's `tokenVersion` equals the user's stored `tokenVersion`.

If all four pass, the route rotates the refresh cookie and answers
`{ ok: true, accessToken }`. Any failure answers `{ ok: false, accessToken: '' }`.
Bumping a user's `tokenVersion` therefore revokes every refresh token issued
to that user before the bump.

The project has three modules:

- `Auth` (auth.dfy) stands in for the route's collaborators.
  - `User` and `Claims` hold the fields the route reads.
  - `Signer` holds `jsonwebtoken.verify` and the `createAccessToken` /
    `createRefershToken` helpers of `utils/auth` as oracles.
  - `UserRepository` is the user table behind `User.findOne`: a map that the
    route only reads, with a ghost record of the lookups made.
- `RefreshHandler` (refresh_handler.dfy) models the route.
  - `Decide` is its chain of early returns as a pure function.
  - `ResponseBody` is the JSON body it sends.
  - `Response` is the slice of the Express response it writes: the `jwt`
    cookie and the body.
  - `HandleRefreshToken` is the handler itself, an imperative method proved
    equal to `Decide`.
- `Revocation` (revocation.dfy) looks at the version check over time. It
  takes a history of user-table snapshots in which no user disappears and no
  version decreases. It proves that a token, once outdated, is denied by every
  later request. It also proves that a freshly rotated token is accepted again
  while nothing changes.

Three details of the route, all kept by the model:

- The guard `!refreshToken` is JavaScript falsiness. An empty `jwt` cookie is
  denied exactly like a missing one (`Present`, `EmptyCookieIsMissing`).
- The route never touches the cookie when it denies.
- The route logs nothing on a version mismatch. `Reason` keeps all four
  reasons internally, and none of them reaches the body.

## Model

| member | source | states |
|---|---|---|
| `Auth.UserRepository.FindOne` | apps/backend/src/index.ts:48 | finds a user exactly when a row with that id exists; the row it returns is the stored one and carries the requested id; the table is left as it was and the lookup is recorded |
| `RefreshHandler.Decide` | apps/backend/src/index.ts:27-61 | succeeds if and only if all four guards pass (cookie present and non-empty, token verifies, user found, versions equal); on success the user is the stored row for the token's user id, at the token's version, and both new tokens are minted from that row |
| `RefreshHandler.ResponseBody` | apps/backend/src/index.ts:32-61 | `ok` is true exactly on success, and the body then carries the new access token; every denial gives the same `{ ok: false, accessToken: '' }` |
| `RefreshHandler.Response.constructor` | apps/backend/src/index.ts:26 | the response reaches the route with no refresh cookie set and nothing sent |
| `RefreshHandler.Response.SendRefreshToken` | apps/backend/src/index.ts:59 | sets the `jwt` cookie to the given token; it must come before the body is sent, and it leaves the body unsent |
| `RefreshHandler.Response.Send` | apps/backend/src/index.ts:61 | sends the body exactly once and leaves the cookie as it was |
| `RefreshHandler.HandleRefreshToken` | apps/backend/src/index.ts:26-62 | the outcome equals `Decide` on the stored users; the body sent is that outcome's body; the cookie is the rotated refresh token on success and unchanged on every denial; the user table is left unchanged; no lookup happens when the cookie is missing or the token fails verification, and exactly one lookup, of the token's user id, happens otherwise |
| `RefreshHandler.MissingCookieConsultsNothing` | apps/backend/src/index.ts:27-36 | without a usable cookie the outcome is a denial that is the same for every secret, verifier and user table, so neither verification nor lookup decides anything |
| `RefreshHandler.EmptyCookieIsMissing` | apps/backend/src/index.ts:27-29 | an empty `jwt` cookie is denied exactly like an absent one |
| `RefreshHandler.InvalidTokenSkipsLookup` | apps/backend/src/index.ts:38-45 | a token that fails verification is denied, with the same outcome for every user table, so no lookup decides anything |
| `RefreshHandler.UnknownUserDenied` | apps/backend/src/index.ts:48-53 | a verified token whose user id is not in the table is denied |
| `RefreshHandler.StaleVersionDenied` | apps/backend/src/index.ts:55-57 | a verified token whose version differs from its user's stored version is denied |
| `RefreshHandler.DenialsLookAlike` | apps/backend/src/index.ts:29-57 | any two denied requests get identical bodies, whichever guard failed, even under different secrets, verifiers (moments) and user tables |
| `Revocation.VersionPersists` | apps/backend/src/index.ts:55-57 | along a history whose steps keep every user and never lower a version, a user present at one step is present later with a version at least as high |
| `Revocation.OutdatedTokenStaysDenied` | apps/backend/src/index.ts:55-57 | a token whose embedded version is below its user's stored version at some step is denied for a stale version at every later step |
| `Revocation.AcceptedTokenRevoked` | apps/backend/src/index.ts:48-61 | a token accepted at one step is denied at every step after its user's stored version has changed |
| `Revocation.IssuedTokenAcceptedIff` | apps/backend/src/index.ts:40-61 | with a sound signer, a refresh token minted for a user is accepted if and only if the table still holds that user id at the minted version; on acceptance the user returned is the current row |
| `Revocation.RotatedCookieAccepted` | apps/backend/src/index.ts:59-61 | after a success, with a sound signer and an unchanged table, the rotated cookie is accepted by the next request |
| `Revocation.LogoutEverywhereScenario` | apps/backend/src/index.ts:40-61 | user 1 at version 0 refreshes successfully; once its stored version is 1, the rotated token it received is denied for a stale version |

## Left out

- Server bootstrap: Express, CORS and cookie-parser setup, the `/` route,
  Apollo server construction, the database connection and `app.listen`. These
  are framework plumbing around the route.
- JWT signing and checking inside `jsonwebtoken.verify`. The verifier is an
  oracle returning the decoded claims or nothing. The clock is folded into it,
  so expiry is whatever the oracle says at the moment of the request. The
  `Revocation` lemmas keep one oracle for the whole history.
- The token construction and cookie attributes of `createAccessToken`,
  `createRefershToken` and `sendRefreshToken`. utils/auth is not part of this
  model, so they are oracles. `SignerAccepts` states, per user, the
  round-trip that a sound signer gives. Because the minting oracle is a
  function of the user alone, two rotations for the same user row mint the
  same token. Distinct issue times are not modelled.
- Incrementing `tokenVersion` (revocation) lives in the GraphQL resolvers,
  which are not part of this model. The `Revocation` module takes the table's
  history as given. Its hypothesis that no step removes a user excludes a
  deleted id that comes back at a lower version.
- The shape of a verified payload. `Claims` assumes a refresh token carries a
  numeric `userId` and `tokenVersion`, as tokens minted by
  `createRefershToken` do. A payload lacking them, and what `User.findOne`
  does with an undefined id, are not modelled.
- Failures of the foreign calls themselves. `User.findOne` can reject, and
  `createRefershToken` or `createAccessToken` can throw (for instance when a
  signing secret is unset). The exception then escapes the async handler and
  no body is sent; a throw from `createAccessToken` comes after the cookie was
  already set. In the model `FindOne` and the signer oracles are total, so
  `HandleRefreshToken` always sends a body.
- `async`/`await` and races between a refresh and a concurrent revocation.
  Each request is one atomic step against one snapshot of the table.
- `console.log` diagnostics. The internal `Reason` stands in for them.
- The web client's login page (apps/web/src/pages/Login.tsx). It is a form
  component with no logic of the route in it.
