# Request admission for the product-review API, in Dafny

This project models the middleware that decides, for each request to the
product-review REST API, whether it gets through to a controller. It also
proves properties of those decisions.

- **Rate-limit policy and over-limit responder** (`RateLimit`). `Limit` maps a
  route class (`login`, `get`, `post`, `put`, `delete`, anything else) to its
  maximum, window and message. `RateLimitHandler` is the handler that answers a
  client over its limit: 403 "Do not allow bot requests" when the User-Agent
  matches one of the 108 bot signatures case-insensitively, otherwise 429 with
  the policy's message. The signatures are regular expressions built only from
  literal characters, `.`, `\s` and `\+`. `Compile` reads that fragment as a
  sequence of atoms. `MatchHere`, `SearchFrom` and `Test` are the search, and
  each is proved equal to a declarative "occurs at some position" definition.
- **Version gate** (`Versioning.Gate`). The route's handler runs only when the
  `x-version` header is present and equal to the route's version. A missing,
  empty or different header skips to the next route. Version comparison is a
  parameter that returns a verdict or throws.
- **Authentication gate** (`AuthJwt`). `Decide` is the three-way decision on
  the session's `authToken`. `VerifyJwt` is the middleware itself: a method
  over a `Request` object that sets `req.user` only on success. Token
  verification is a parameter that returns the decoded claims or throws.
- **Session accessor and configuration** (`SessionConfig`). The class `Session`
  holds the session's key/value map. It has `GetSession`, `SetSession` and
  `DestroySession`; after a destroy, every further access throws.
  `InitializeSession` holds the fixed cookie and store options.
- **Malformed-JSON filter** (`ErrorHandling.ErrorHandler`). It answers 400 only
  for a SyntaxError with status 400 and a `body` property. Any other error is
  dropped with a plain `next()`.
- **Composition** (`Pipeline`). Each route runs limiter, then version gate,
  then controller, in that order. `Run` returns the first outcome that is not
  `next()`.

JavaScript values appear as `Runtime.Value`, with ECMAScript truthiness.
"Throws" appears as `Runtime.Completion`. A middleware's effect on the request
appears as `Runtime.Outcome`: `next()`, `next("route")`, a JSON response, or an
error passed to Express.

Notes on what the code does:

- The routers mount the rate limiter *before* the version gate
  (server/router/productRouter.js:8-14), so an over-limit client is refused
  whatever version it sends.
- A header that is not a valid version makes the version library throw, so the
  gate raises an error (`Raise`) rather than skipping the route.
- When JWT_SECRET is not set, nothing fails at startup. The template literal
  `${process.env.JWT_SECRET}` becomes the text "undefined", and both the session
  cookie and token verification use that text as the secret.
- `verifyJwt` is not mounted on any router, so no route shown is actually
  protected by it.
- Because the plain signature "Bot" is in the list and the match ignores case,
  every User-Agent containing "bot" in any letter case counts as a bot. This
  includes ordinary browsers on devices whose names contain "bot"
  (`BotKeyword`).

## Model

| member | source | states |
|---|---|---|
| `RateLimit.Limit` | server/middleware/limit.js:86-125 | every policy has max > 0 and window > 0; the message is the login message exactly for `login`, and the generic rate-limit message for every other class; any class other than the five named ones gets 25 requests per 900000 ms |
| `RateLimit.PolicyTable` | server/middleware/limit.js:90-115 | login is (3, 180000 ms, "Please wait 3 minutes before trying again."); get is (25, 900000); post and put are (45, 900000); delete is (10, 600000) |
| `RateLimit.DefaultIsGet` | server/middleware/limit.js:116-120 | an unknown route class gets exactly the `get` policy |
| `RateLimit.SignatureList` | server/middleware/limit.js:8-28 | the signature list has 108 entries, starting with "Prerender", ending with "W3C_Validator", with the plain "Bot" ninth |
| `RateLimit.Compile` | server/middleware/limit.js:54 | how a signature is read as a regular expression; this agrees with the engine only on the fragment of literal characters, `.`, `\s` and `\+`. The contract states only that there are at least half as many atoms as pattern characters and at most as many, that a pattern without `\` gives one atom per character, and that an unrestricted atom needs a `.` and a whitespace atom a `\s` in the pattern |
| `RateLimit.Canon` | server/middleware/limit.js:54 | the case folding of the flag "i", on ASCII: the result is never a lowercase letter, and it is either the character itself or, for a lowercase letter, the same letter in upper case |
| `RateLimit.AtomMatches` | server/middleware/limit.js:54 | a literal atom matches exactly the same character or the same letter in the other case; `\s` matches every line terminator and `.` none |
| `RateLimit.MatchHere` | server/middleware/limit.js:54 | the atom-by-atom matcher succeeds exactly when every atom matches the input character at its offset from position i, and the atoms fit in the input |
| `RateLimit.SearchFrom` | server/middleware/limit.js:54 | the search from position i succeeds exactly when the pattern matches at some position j >= i |
| `RateLimit.Test` | server/middleware/limit.js:54 | `new RegExp(p, "i").test(s)` holds exactly when the compiled pattern occurs somewhere in s |
| `RateLimit.AnyMatch` | server/middleware/limit.js:54 | `patterns.some(...)` holds exactly when some pattern of the list occurs in the User-Agent |
| `RateLimit.IsBot` | server/middleware/limit.js:52-55 | the bot test holds exactly when one of the 108 signatures occurs in the User-Agent |
| `RateLimit.LiteralPatternTest` | server/middleware/limit.js:54 | a signature without special characters matches exactly the User-Agents that contain it, ignoring ASCII letter case (both directions) |
| `RateLimit.BotKeyword` | server/middleware/limit.js:10 | because "Bot" is in the list, a User-Agent containing "bot" in any letter case is a bot |
| `RateLimit.RateLimitHandler` | server/middleware/limit.js:48-67 | the handler always responds and never passes the request on; the status is 403 or 429; it is 403, with "Do not allow bot requests", exactly when a non-empty User-Agent matches some signature; otherwise it is 429 with the policy's message |
| `RateLimit.BotUserAgentForbidden` | server/middleware/limit.js:52-60 | an over-limit User-Agent containing "bot" in any case is answered 403 "Do not allow bot requests" |
| `RateLimit.NoUserAgentTooMany` | server/middleware/limit.js:62-66 | without a User-Agent the answer is 429 with the policy's message |
| `Versioning.Gate` | server/middleware/versioning.js:16-32 | the request proceeds exactly when the header is present, non-empty and equal to the required version; it skips to the next route exactly when the header is missing or empty, or compares unequal; an error is raised exactly when the comparison throws; the gate never writes a response |
| `Versioning.MissingHeaderSkips` | server/middleware/versioning.js:27-30 | a missing or empty header skips the route, whatever the comparison would say |
| `ErrorHandling.ErrorHandler` | server/middleware/errorHandler.js:27-43 | the only outcomes are 400 with the malformed-JSON message and plain `next()`; the 400 happens exactly when the error is a SyntaxError, its status is the number 400 and it has a `body` property |
| `ErrorHandling.AnyConditionFailingPassesOn` | server/middleware/errorHandler.js:41-42 | if any one of the three conditions fails, there is no response and `next()` is called without the error |
| `ErrorHandling.StringStatusPassesOn` | server/middleware/errorHandler.js:29 | a status given as the string "400" fails the strict comparison with 400, so the error is passed on |
| `SessionConfig.InitializeSession` | server/middleware/sessionConfig.js:13-27 | the cookie lives 1800000 ms, is httpOnly, is not secure-only and is SameSite "Lax"; resave and saveUninitialized are off; the secret is JWT_SECRET's text, or "undefined" when it is unset |
| `SessionConfig.LookupAfterUpdate` | server/middleware/sessionConfig.js:37-52 | a written key reads back; other keys keep their values; a second write to a key replaces the first; a key never written reads as undefined |
| `SessionConfig.Session.GetSession` | server/middleware/sessionConfig.js:50-52 | a live session returns the stored value, or undefined for a key never set; after destroy the read throws |
| `SessionConfig.Session.SetSession` | server/middleware/sessionConfig.js:37-39 | on a live session the key maps to the new value, `GetSession` returns it, and every other key's value is unchanged; on a destroyed session it throws and changes nothing |
| `SessionConfig.WriteTwice` | server/middleware/sessionConfig.js:37-39 | two `setSession` calls on one key of a live session: the second value is what `getSession` returns, and the store is the old one with only that key changed |
| `SessionConfig.Session.DestroySession` | server/middleware/sessionConfig.js:60-62 | all stored data is removed, the session is gone, and every later read throws; destroying again throws |
| `AuthJwt.Decide` | server/middleware/authJwt.js:17-38 | a falsy token means "session expired"; a truthy token whose verification throws means "invalid token"; a truthy token that verifies means authenticated, with exactly the decoded claims |
| `AuthJwt.ThreeEndings` | server/middleware/authJwt.js:15-39 | every request ends in exactly one of: proceed (token present), 401 "Session expired." (token falsy) or 401 "Invalid token." (token present) |
| `AuthJwt.ExpiredIgnoresVerifier` | server/middleware/authJwt.js:20-22 | without a token the outcome does not depend on the verifier, so verification plays no part |
| `AuthJwt.Answer` | server/middleware/authJwt.js:20-37 | the request proceeds exactly when the token was authenticated; otherwise the answer is 401; a missing token gets 401 "Session expired." and a token whose verification threw gets 401 "Invalid token." |
| `AuthJwt.NoTokenSessionExpired` | server/middleware/authJwt.js:17-21 | a session whose `authToken` is missing or falsy, such as the fresh one after a destroy, is refused with 401 "Session expired.", whatever the secret and the verifier |
| `AuthJwt.VerifyJwt` | server/middleware/authJwt.js:15-39 | the middleware's outcome is the decision's answer for the session's `authToken`, verified with the same secret text the session cookie is signed with (`InitializeSession`'s secret: JWT_SECRET's text, or "undefined"); `req.user` becomes the decoded claims on success and is untouched otherwise; the session is only read; reading from a destroyed session raises an error |
| `Pipeline.Limiter` | server/middleware/limit.js:44-48 | the limiter passes the request on exactly when the client's count in the window is at most `max`; otherwise the over-limit handler answers |
| `Pipeline.Route` | server/router/productRouter.js:8-14 | a route is the limiter for its class, then the version gate, then the controller: over the limit the handler answers; otherwise a gate that does not proceed decides; otherwise the controller does |
| `Pipeline.Run` | server/router/productRouter.js:8-14 | a route proceeds exactly when every stage calls `next()`; otherwise its outcome is that of a stage all of whose predecessors called `next()` |
| `Pipeline.HandlerReachedIff` | server/router/productRouter.js:8-14 | the controller runs exactly when the client is within the class's maximum and sends a header equal to the route's version |
| `Pipeline.MissingVersionSkipsRoute` | server/router/reviewRouter.js:17-41 | a request without `x-version` never reaches the controller: it is skipped to the next route, or answered by the limiter when over the limit |
| `Pipeline.OverLimitAnsweredFirst` | server/router/authRouter.js:8-9 | an over-limit client is answered by the rate-limit handler whatever its version header says, since the limiter comes first |
| `Pipeline.LoginBeyondThirdAttempt` | server/router/authRouter.js:9 | every login attempt after the third within the window, from a client without a User-Agent or with one that is not a bot, is answered 429 "Please wait 3 minutes before trying again.", whatever its version header |
| `Pipeline.OverLimitBotForbidden` | server/router/productRouter.js:8-14 | an over-limit client whose User-Agent contains "bot" in any case gets 403, on any route and whatever its version header says |

## Left out

- Request counting: the fixed-window counter, its per-client keying and its reset all live in the rate-limiting library, which is not part of this model. `Pipeline.Limiter` takes the library's count of this client's requests in the window as an input `hits`, and assumes the handler runs once that count exceeds `max`.
- Regular-expression engine: only the fragment the signatures use is modelled, and the claim that every signature lies in that fragment comes from reading the list, not from a proof. The engine works on UTF-16 code units, but the model works on Unicode scalar values. So `.` in the model also matches a character outside the Basic Multilingual Plane, which the engine does not. Case folding is ASCII-only. This is exact for the signatures, which are all ASCII, because the engine never folds a non-ASCII character to an ASCII one.
- Version parsing and comparison (`semver.eq`) and token signing and verification (`jwt.verify`) are foreign calls. They appear as the function parameters `SemverEq` and `JwtVerify`. Token issuing is done by server/middleware/jwtService.js, which is not part of this model.
- Session store internals: cookie signing, id generation, loading and saving, and expiry after `maxAge`. `req.session` also carries its own properties (`id`, `cookie`, methods), which a `getSession` on those key names would return; the map holds only stored values.
- The response body's `status` field is always equal to the HTTP status, so `Outcome.Respond` carries one status.
- What Express does after an error is raised, beyond `ErrorHandling.ErrorHandler`: the built-in final handler is not modelled. The messages of the `TypeError`s thrown by a destroyed session are placeholders.
- Validators: the `express-validator` chains always call `next()`, and their findings are read by the controllers. They add no stage that can stop a request, so `Pipeline.Route` leaves them out.
- Controllers, models, the database connection, `server.js` wiring and listening, and all console output: these are I/O and library calls.
- Concurrency: counters and sessions are shared between concurrent requests, and the model is sequential.
