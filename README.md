# Session and authentication model of the SkillBoost API server

This project is a verified Dafny model of how the SkillBoost Express server handles sessions and authentication:

- registering an account behind a four-digit activation code that is good for one minute;
- activating it;
- logging in with email and password, which issues an access/refresh token pair and writes a session snapshot to Redis;
- the `isAuthenticated` gate, which checks the access token against that snapshot on every protected route;
- rotating the pair from a refresh token;
- logging out;
- the `/me` lookup;
- updating the profile.

The sources are `server/controllers/user.controller.ts`, `server/utils/jwt.ts`, `server/middleware/auth.ts` and `server/services/user.service.ts`.

Each handler is modelled as the ordered chain of guards it runs, with the exact status codes and messages it sends. State that changes lives in four classes:

- `SessionCache` is the Redis map from user id to snapshot.
- `UserStore` is the Mongo collection. It files documents by email and keeps the `_id` index that `findById` uses.
- `CookieSettings` holds the module-level cookie option objects of `jwt.ts`.
- `Request` holds the request's two cookies and `req.user`.

The handlers are methods over these objects. Each method's `ensures` ties its reply and its new state to a pure function (`ActivationCheck`, `LoginCheck`, `Rotate`, `ProfileUpdate`, `Gate`, …). Lemmas about those functions carry the cross-handler properties, for example:

- logout revokes a still-valid access token;
- a rotation leaves the session as it was and its new token opens the gate;
- the one-minute activation window and what happens when an activation is repeated.

Abstractions:

- **Tokens.** A token is a value `Token(payload, secret, expiresAt)`, and `jsonwebtoken` is modelled as `Sign`/`Verify`. Verification checks the secret first, then `now < expiresAt`. A garbled cookie is a token signed with some other secret.
- **Clock and randomness.** `Date.now()` and `Math.random()` are parameters (`now`, `random` in [0, 1)).
- **Mail.** Delivery is a parameter that says whether it succeeded or failed, with the failure's message.
- **Missing values.** A missing or empty token cookie is `None`. A missing body field is the empty string: both are falsy, as the source tests them.
- **JSON.** `JSON.parse(JSON.stringify(u))` is taken to be `u`.

In these places the code does something that is easy to misread; the model follows the code:

- An invalid or expired refresh token is answered with 400 and the library's message ("invalid signature", "jwt expired"), through the generic catch. It is not 401.
- A refresh token whose session is missing gives 404 "Session not found".
- `/me` answers 201 on success. Its 404 body is `{message}` with no `success` field.
- The access cookie's `maxAge` counts `ACCESS_TOKEN_EXPIRE` in hours, and the refresh cookie's counts `REFRESH_TOKEN_EXPIRE` in days. With nothing set that is 300 hours and 1200 days. Rotation meanwhile signs tokens for a hard-coded "5m" and "3d".
- The profile update refuses any email already on file, including the user's own.
- Login loads the user with `+password` and caches that document. So the session snapshot, and what `/me` returns after a login, include the password hash (`Sessions.MeAfterLogin`). A profile update caches the document without it.

## Model

| member | source | states |
|---|---|---|
| `JsNumbers.DecimalString` | server/controllers/user.controller.ts:86-88 | `toString()` of a non-negative integer is a non-empty string of decimal digits with no leading zero |
| `JsNumbers.ParseInt` | server/utils/jwt.ts:14-21 | `parseInt(s, 10)` is NaN exactly when no digit follows the leading white space and one optional sign; otherwise its magnitude is the value of the leading digits, and a non-zero result is negative exactly when the sign is `-` |
| `JsNumbers.FourDigits` | server/controllers/user.controller.ts:86-88 | every number from 1000 to 9999 is written with exactly four digits |
| `JsNumbers.ParseIntOfDecimal` | server/utils/jwt.ts:14-21 | `parseInt(s, 10)` gives back the number whose decimal digits start `s`, whatever non-digit follows (so `"5m"` reads as 5) |
| `Signing.Verify` | server/controllers/user.controller.ts:111-115 | `jwt.verify` succeeds exactly when the secret matches and `now < expiresAt`, and then returns the payload; a wrong secret gives "invalid signature" before expiry is looked at; an expired token gives "jwt expired" |
| `Signing.Sign` | server/controllers/user.controller.ts:90-94 | a signed token verifies to its payload under its own secret for its whole lifetime, is expired from then on, and fails under any other secret |
| `Signing.SubjectId` | server/middleware/auth.ts:30 | `decoded.id` exists exactly for `{id}` payloads, and is then that payload's id |
| `Stores.SessionCache.Get` | server/middleware/auth.ts:30 | `redis.get` returns the snapshot stored under the key, or nothing when the key is absent |
| `Stores.SessionCache.Set` | server/utils/jwt.ts:47 | `redis.set` overwrites exactly one key with no expiry |
| `Stores.SessionCache.Del` | server/controllers/user.controller.ts:196 | `redis.del` removes exactly one key; a missing key is not an error |
| `Stores.UserStore.FindByEmail` | server/controllers/user.controller.ts:166 | `findOne({email})` finds the document filed under that email, with its password only when `+password` is selected |
| `Stores.UserStore.FindById` | server/controllers/user.controller.ts:285 | `findById` finds the document whose `_id` is given, without its password |
| `Stores.UserStore.Create` | server/controllers/user.controller.ts:133-137 | `create` stores one new document, with a hashed password, under its email and a fresh `_id`, and keeps the index consistent |
| `Stores.UserStore.Save` | server/controllers/user.controller.ts:296 | `save` refiles the document under its new email with its new name; the password hash is kept and the index stays consistent |
| `Jwt.ExpireSetting` | server/utils/jwt.ts:14-21 | `parseInt` of the variable or, when it is unset or empty, of the default: an unset or empty variable (both falsy) falls back; any other value is parsed as written |
| `Jwt.AccessTokenExpire` | server/utils/jwt.ts:14-17 | `accessTokenExpire` is 300 when `ACCESS_TOKEN_EXPIRE` is unset or empty, and otherwise `parseInt` of its value |
| `Jwt.RefreshTokenExpire` | server/utils/jwt.ts:18-21 | `refreshTokenExpire` is 1200 when `REFRESH_TOKEN_EXPIRE` is unset or empty, and otherwise `parseInt` of its value |
| `Jwt.AccessTokenOptions` | server/utils/jwt.ts:23-34 | `maxAge` is `accessTokenExpire × 3600000` and `expires` is the load-time clock plus that (both NaN when the variable does not parse); `httpOnly` is true, `sameSite` is "lax", and there is no `secure` |
| `Jwt.RefreshTokenOptions` | server/utils/jwt.ts:26-40 | `maxAge` is `refreshTokenExpire × 86400000` and `expires` is the load-time clock plus that; `httpOnly` is true, `sameSite` is "lax", and there is no `secure` |
| `Jwt.DefaultCookieLifetimes` | server/utils/jwt.ts:14-40 | with the environment unset, `accessTokenExpire` is 300 and `refreshTokenExpire` is 1200; that gives `maxAge` 1080000000 and 103680000000 ms, with `expires` at the clock plus those |
| `Jwt.ConfiguredAccessLifetime` | server/utils/jwt.ts:14-17 | a configured `ACCESS_TOKEN_EXPIRE` of n, with or without a trailing unit, makes the access cookie live n hours |
| `Jwt.CookieSettings.constructor` | server/utils/jwt.ts:23-40 | at module load the shared option objects are exactly the two records above, each built with its own clock reading |
| `Jwt.IssuePair` | server/utils/jwt.ts:43-44 | the access token verifies to `{id: user._id}` under the access secret and the refresh token under the refresh secret, each for its lifetime, and each is expired ("jwt expired") from then on; neither verifies under the other's secret |
| `Jwt.SecuredAccess` | server/utils/jwt.ts:49-51 | `secure` becomes true in production and is otherwise left as it was, so once set it stays set; no other field changes |
| `Jwt.TokenReply` | server/utils/jwt.ts:52-59 | the reply has the given status and `{success: true, accessToken, user}`; the `accessToken` cookie carries the very token in the body, the `refreshToken` cookie carries its partner, and each cookie uses its option object; the two tokens are the pair `IssuePair` signs for the user |
| `Jwt.SendToken` | server/utils/jwt.ts:42-60 | the cache gains `user._id ↦ user` and every other key is unchanged; only the access options can gain `secure`; the reply is `TokenReply` for the user, the status code and the option objects now in force |
| `Auth.Gate` | server/middleware/auth.ts:15-46 | in order: no token gives 401 "Login first to access this resource"; a verify failure gives 401 "… or some error"; a falsy payload gives 401 "Access token is not valid"; no session gives 404 "User not found"; it proceeds exactly when the token is an unexpired access token whose id has a session, with that session's snapshot |
| `Auth.IsAuthenticated` | server/middleware/auth.ts:10-48 | the outcome is `Gate` on the request's cookie and the cache; `req.user` is set to the snapshot only when it proceeds; the cache is only read |
| `UserService.GetUserById` | server/services/user.service.ts:5-12 | an absent id gives 404 `{message: "User not found"}`; a present id gives 201 `{success: true, user}` with the stored snapshot itself |
| `UserController.ActivationNumber` | server/controllers/user.controller.ts:86-88 | `Math.floor(1000 + Math.random() × 9000)` is always between 1000 and 9999 |
| `UserController.CreateActivationToken` | server/controllers/user.controller.ts:83-96 | the code is four decimal digits that parse to a number from 1000 to 9999; for ten minutes the token verifies under `JWT_SECRET` to {draft, that code, issue time}, and after that it is expired |
| `UserController.RegisterUser` | server/controllers/user.controller.ts:29-76 | a taken email gives 400 "Email is already exist" and sends no mail; otherwise the code goes to the mail collaborator; the reply is 201 exactly when the mail went out, and its token carries {name, email, password} (no avatar) with the mailed code; a mail failure gives 400 with its message |
| `UserController.WindowInMilliseconds` | server/controllers/user.controller.ts:117-120 | "more than one minute" in real-valued minutes is exactly "more than 60000 ms" |
| `UserController.CodeAccepted` | server/controllers/user.controller.ts:117-124 | the supplied code passes exactly when the payload is an activation bundle with that code and at most 60000 ms have passed since it was created |
| `UserController.ActivationCheck` | server/controllers/user.controller.ts:104-131 | in order: no token gives 400 "Invalid token"; a verify failure gives 400 with its message; a wrong code or a late one gives 400 "Invalid or expired activation code"; a taken email gives 400 "Email is already exist"; it succeeds exactly when all pass, with the embedded draft |
| `UserController.ActivateUser` | server/controllers/user.controller.ts:100-148 | the store gains exactly one document only when `ActivationCheck` succeeds, and then the reply is 201 with that document; otherwise the store is unchanged and the error is sent |
| `UserController.LoginCheck` | server/controllers/user.controller.ts:162-176 | an empty email or password gives 400; every other refusal is the same 401 "Invalid email or password"; it succeeds exactly when the email is on file and the password matches, with that document |
| `UserController.LoginUser` | server/controllers/user.controller.ts:157-182 | a refusal changes neither the cache nor the cookie options; success is `sendToken(user, 200)` |
| `UserController.LoggedOut` | server/controllers/user.controller.ts:196 | only the key `req.user._id` is removed; every other session is kept as it was |
| `UserController.LogoutUser` | server/controllers/user.controller.ts:186-205 | both cookies are set to "" with `maxAge: 1`; the session is deleted; the reply is 200 "Logged out successfully" |
| `UserController.Rotate` | server/controllers/user.controller.ts:212-244 | a missing cookie gives 401 "Refresh token not found"; a verify failure gives 400 with its message; no session gives 404 "Session not found"; on success both new tokens carry the snapshot's `_id`; the access token verifies for exactly 5 minutes and the refresh token for exactly 3 days, with "jwt expired" after that |
| `UserController.UpdateAccessToken` | server/controllers/user.controller.ts:209-260 | the cache is unchanged; on success `req.user` becomes the snapshot, both cookies carry the new pair with the shared options, and the reply is 200 `{success: true, accessToken}` |
| `UserController.GetUserInfo` | server/controllers/user.controller.ts:263-271 | `/me` is `getUserById(req.user._id)` on the cache as it is |
| `UserController.ProfileUpdate` | server/controllers/user.controller.ts:286-295 | a non-empty email already on file is refused with 400 "Email is already exist"; otherwise a non-empty name and email replace the old ones and nothing else changes |
| `UserController.UpdateUserInfo` | server/controllers/user.controller.ts:279-311 | a refusal changes neither the store nor the cache, so a name sent in the same request is lost; success saves the document and sets the session of `req.user._id` to it |
| `Sessions.GateYieldsStoredUser` | server/middleware/auth.ts:30-36 | while every session belongs to a stored user, the user the gate admits is stored under the token's id |
| `Sessions.ActivationKeepsSessionsBacked` | server/controllers/user.controller.ts:133-137 | activation keeps every session backed by a stored user |
| `Sessions.LogoutKeepsSessionsBacked` | server/controllers/user.controller.ts:196 | logout keeps every session backed by a stored user |
| `Sessions.GateAdmitsAfterLogin` | server/utils/jwt.ts:42-47 | the access token from `sendToken` opens the gate, with the cached snapshot, for its whole lifetime |
| `Sessions.LogoutRevokesUnexpiredToken` | server/middleware/auth.ts:30-34 | after logout deletes the session, the same still-unexpired access token gets 404 "User not found" |
| `Sessions.GateRejectsAfterLogout` | server/middleware/auth.ts:30-34 | any access token that still verifies for id k gets 404 once k's session is deleted |
| `Sessions.MeAfterLogin` | server/services/user.service.ts:5-12 | `/me` after login returns exactly the document cached by `sendToken`, which is filed under the login email and includes the password hash |
| `Sessions.LoginFailuresIndistinguishable` | server/controllers/user.controller.ts:166-176 | an unknown email and a wrong password give identical refusals |
| `Sessions.RotationKeepsSessionUsable` | server/controllers/user.controller.ts:222-244 | the rotated access token opens the gate on the unchanged cache for the same snapshot, and the rotated refresh token rotates again |
| `Sessions.OwnEmailRefused` | server/controllers/user.controller.ts:289-293 | sending one's own current email is refused |
| `Sessions.GateSeesUpdatedProfile` | server/controllers/user.controller.ts:299 | after the cache overwrite, the gate hands out the updated snapshot |
| `Sessions.ActivationWindowEdges` | server/controllers/user.controller.ts:117-124 | the right code is accepted at exactly 60000 ms and refused at 60001 ms, while the token itself is still valid |
| `Sessions.ReactivationRefused` | server/controllers/user.controller.ts:128-131 | once its user is stored, an activation token never activates again |
| `Sessions.RegisterActivateScenario` | server/controllers/user.controller.ts:45-137 | register, then activate with the mailed code at +30 s: one user is created; the same token and code give "Invalid or expired activation code" at +90 s and "Email is already exist" at +30 s |

## Left out

- JWT cryptography is not modelled. A token records its secret and its expiry. The three secrets (`JWT_SECRET`, `ACCESS_TOKEN`, `REFRESH_TOKEN`) are taken to be different. A malformed cookie is modelled as a token signed with another secret, so its message is "invalid signature" where `jsonwebtoken` would say "jwt malformed".
- Token expiry is kept in milliseconds. `jsonwebtoken` rounds `iat`/`exp` to whole seconds.
- `models/user.model.ts` is not part of this model:
  - `signAccessToken` and `signRefreshToken` become signing with lifetimes given as parameters (`SignerLifetimes`);
  - the password hash becomes an injective `Hash`;
  - `comparePassword` becomes equality of hashes;
  - the schema's `select: false` on the password is what `FindById` and `FindByEmail` model.
- `utils/redis.ts`, `utils/ErrorHandler.ts` and the error middleware are not part of this model. An error passed to `next` becomes `{success: false, message}` with its status code.
- Mail delivery is an input: delivered, or failed with a message. So are SMTP and ejs rendering (`server/utils/sendMail.ts`). The unused `ejs.renderFile` call is left out.
- `Math.random()` is an exact real in [0, 1) and `Date.now()` is an integer parameter. Floating-point rounding is not modelled.
- `parseInt` recognises the listed ASCII and Unicode spaces but not every Unicode space separator. The model does not capture integers beyond 2^53 or the sign of `-0`.
- Absent request-body fields become the empty string. Mongoose's treatment of `findOne({email: undefined})` (it matches any document) is not modelled.
- The supplied activation code is a string. A JSON number would never be strictly equal to the string code and would be refused; the model does not represent it.
- A decoded payload is modelled as `{id}`, the activation bundle, or a falsy value (`Falsy`). A truthy payload without `id` is modelled as finding no session. The gate tests for a falsy payload before it reads `decoded.id` (`server/middleware/auth.ts:27-30`), so every falsy payload gets 401 "Access token is not valid", as modelled. Refresh (`server/controllers/user.controller.ts:222`) and activation (`server/controllers/user.controller.ts:117-118`) read a field of the payload without that test. There `Falsy` behaves like a non-null falsy value such as `""`, whose fields are undefined: refresh finds no session (404 "Session not found") and activation finds no code (400 "Invalid or expired activation code"). A `null` payload would instead make that field read throw a TypeError, which the handler's catch answers with 400 and the TypeError's message. The model does not tell `null` apart from other falsy payloads.
- Failures thrown by Redis, Mongo or `JSON.parse`, and the 400 answers of the generic `catch` blocks for them, are not modelled.
- Every cache and store call is an atomic, synchronous map update. The model does not capture un-awaited `redis.set`/`redis.del`, concurrency between requests, or last-write-wins races between refresh and profile update.
- How Express turns cookie options into headers (`maxAge` recomputing `expires`) and `console.log` output are not modelled.
- Request routing (`server/routes/user.route.ts`), application bootstrap (`server/app.ts`) and the type augmentation (`server/@types/custom.d.ts`) are out of scope. The protected handlers (`LogoutUser`, `GetUserInfo`, `UpdateUserInfo`) require `req.user` to be set, which the gate does before them on every protected route.
- UserController.UpdateUserInfo: requires that `req.user._id` is a stored user. In the source, `findById` finding nothing would skip `save` and cache the string "null". Nothing in this core deletes users. `Sessions.GateYieldsStoredUser` with the `SessionsBacked` invariant, which every handler keeps, shows that the gate only admits stored users. So that path is not modelled.
- UserController.ActivateUser: requires that the `_id` the store assigns is fresh, as Mongo guarantees for generated ids.
