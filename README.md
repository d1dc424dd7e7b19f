# A verified model of a school-management system's request layer

The system is a course, attendance and homework manager with three server
parts. A Koa "BFF" (backend for frontend) gateway sits in front, with shared
Koa middleware packages. Behind it is a Koa backend with services over a
Sequelize database. A second, NestJS "integrated" backend exposes the same
resources. This project models the decision logic of all three in Dafny and
proves properties of it. The logic covered:

- **Gateway.** The legacy fallback proxy: activation, header allow-list, path
  rewrite and reply reconciliation. The admin-overview aggregator and its
  output schema. The response-shape validator. The fixed-window rate
  limiters, answering 429 as section 4 of RFC 6585 describes. The bearer
  token gate (section 2.1 of RFC 6750). The role gates. The outer error
  normaliser. Trace-id propagation. The snake-to-camel key converter.
- **Backend middleware.** CORS origin resolution (the CORS protocol of
  section 3.2 of the WHATWG Fetch standard). The JWT cascade and the role
  guards. The error-name to status mapping and the not-found handler.
  Log redaction and excluded paths. Required-field, pagination and id
  validation. Upload checks. The query-condition to where-clause
  translator.
- **Backend services and controllers.** The base controller's response
  helpers. The base service's record operations and pagination arithmetic.
  The service factory's registry and cache. The attendance, homework, course
  and user services, with the database as a store of rows. The four Koa
  controllers.
- **Integrated backend.** The dashboard clamps, the user and course
  controllers, and the HTTP exception filter.

A module `Js` models the JavaScript values the code handles:
- JSON with ordered object members, so key order and "the later key wins"
  can be stated;
- numbers with NaN and the infinities;
- truthiness;
- `parseInt` and `String()`.

A module `Koa` models the request context as a class whose fields the
middleware methods update. Each of those methods states its whole new state
through a snapshot of the context.

Conventions:
- Middleware that writes the context is a `method` with `modifies ctx`,
  proved against a specification function of the old snapshot.
- Loops in the source are `while` loops proved against a function.
- Stores of rows are classes (`Table`, `CourseStore`, `UserStore`,
  `AttendanceStore`, `HomeworkStore`, `ServiceFactory.Factory`,
  `FixedWindow.RateStore`). Each method returns the reply of a pure reply
  function and the new rows that function describes.
- Everything the code reaches outside itself is a function parameter:
  - the service calls a controller makes;
  - the upstream HTTP calls;
  - `JSON.parse`, `Number()`, the schema parser, `jwt.verify` and bcrypt;
  - the clock.

## Model

| member | source | states |
|---|---|---|
| Trace.HexText | apps/bff/src/middleware/trace.ts:10-11 | `toString(16)` text is non-empty and made of hex digits |
| Trace.GenTraceId | apps/bff/src/middleware/trace.ts:9-12 | the id is the clock in hex, one dash, then at most eight hex digits taken from the front of the random digits |
| Trace.TraceMiddleware | apps/bff/src/middleware/trace.ts:14-21 | the chosen id (inbound header, else a generated one) is written to `state.traceId` and to the `X-Trace-Id` response header, nothing else changes, and next always runs |
| Trace.ReusesInbound | apps/bff/src/middleware/trace.ts:16-17 | a non-empty inbound `X-Trace-Id` is reused verbatim |
| Trace.GeneratesOtherwise | apps/bff/src/middleware/trace.ts:17 | without an inbound id the generated id is used, and it is never empty |
| Js.OrElse | apps/backend/src/controllers/HomeworkController.ts:64-67 | `a \|\| b`: the first when truthy, otherwise the second; the result is truthy exactly when either is |
| CamelCase.CamelKey | apps/bff/src/utils/case.ts:6 | the rewritten key is no longer than the original, has no `_` followed by a lower-case letter left, and keeps a lower-case first letter |
| CamelCase.CamelKeyFixed | apps/bff/src/utils/case.ts:6 | a key without an `_x` pair is left unchanged |
| CamelCase.ToCamel | apps/bff/src/utils/case.ts:1-12 | arrays map to arrays of the same length; values that are neither arrays nor objects come back unchanged |
| CamelCase.CamelItems | apps/bff/src/utils/case.ts:2 | `input.map(toCamel)`: same length, each item converted |
| CamelCase.CamelMembers | apps/bff/src/utils/case.ts:4-9 | the key loop keeps the keys of the object being built distinct |
| CamelCase.ToCamelMethod | apps/bff/src/utils/case.ts:1-12 | the looping conversion computes exactly `ToCamel` |
| CamelCase.ToCamelCamelised | apps/bff/src/utils/case.ts:1-12 | every key at every depth of the output is camel-cased |
| CamelCase.MembersCamelised | apps/bff/src/utils/case.ts:5-8 | the key loop yields only camel-cased members when it starts from camel-cased ones |
| CamelCase.CamelisedFixed | apps/bff/src/utils/case.ts:1-12 | a value that is already camel-cased is its own conversion |
| CamelCase.MembersFixed | apps/bff/src/utils/case.ts:5-8 | on a camel-cased object, the key loop rebuilds the members unchanged |
| CamelCase.MemberFixed | apps/bff/src/utils/case.ts:6-7 | one step of the key loop on a camel-cased object appends its member unchanged |
| CamelCase.Idempotent | apps/bff/src/utils/case.ts:1-12 | converting twice is the same as converting once |
| CamelCase.CamelKeys | apps/bff/src/utils/case.ts:5-6 | one converted key per member, in member order |
| CamelCase.FirstOccurrences | apps/bff/src/utils/case.ts:7 | the distinct keys holding the same elements as the list, in first-occurrence order |
| CamelCase.LastWith | apps/bff/src/utils/case.ts:7 | nothing exactly when no member converts to the key; otherwise the converted value of the last member that does |
| CamelCase.CollidingKeys | apps/bff/src/utils/case.ts:3-9 | for every object: the output's keys are the distinct converted keys in first-occurrence order, and each holds the converted value of the last member whose key converts to it |
| CamelCase.LaterKeyWins | apps/bff/src/utils/case.ts:7 | an example of `CollidingKeys`: `user_id` then `userId` keep the first one's position and the second one's value |
| CamelCase.CollisionSteps | apps/bff/src/utils/case.ts:5-8 | the key loop on `user_id`, `userId`, `x` gives `userId` (second value), then `x` |
| CamelCase.SnakeIdKey | apps/bff/src/utils/case.ts:6 | `_id` becomes `Id` |
| CamelCase.UserIdKey | apps/bff/src/utils/case.ts:6 | `user_id` becomes `userId` |
| CamelCase.RIdKey | apps/bff/src/utils/case.ts:6 | `r_id` becomes `rId` |
| CamelCase.OtherUnderscoresStay | apps/bff/src/utils/case.ts:6 | an underscore not followed by a lower-case letter stays: `a_1` is kept, `_a` gives `A`, `a__b` gives `a_B` |
| ResponseValidation.Checked | apps/bff/src/middleware/responseValidation.ts:32-42 | an envelope (an object with a `data` key) gets only its `data` replaced by the parsed value, every other key and value kept; any other body is replaced whole by the parse; the result is absent exactly when the parse throws |
| ResponseValidation.ValidateBffResponse | apps/bff/src/middleware/responseValidation.ts:24-43 | after next, an unset body or a status of 400 or more leaves the response untouched; otherwise the body becomes the checked body, or the schema error escapes and nothing changes |
| ResponseValidation.EnvelopeKeepsCodeAndMessage | apps/bff/src/middleware/responseValidation.ts:35-38 | a `{code, message, data}` envelope keeps its code and message while its data is replaced by the parse |
| ResponseValidation.IdentitySchemaChangesNothing | apps/bff/src/middleware/responseValidation.ts:35-42 | a schema that accepts and returns its input leaves every body unchanged |
| RoleGates.RoleList | apps/bff/src/middleware/roles.ts:9 | one role becomes the one-element list; a list is kept as it is |
| RoleGates.RolePassesIffShares | apps/bff/src/middleware/roles.ts:11-12 | the gate passes exactly when the user holds one of the listed roles; the empty-roles test adds nothing |
| RoleGates.GateOutcome | apps/bff/src/middleware/roles.ts:12-17 | a passing gate leaves the context untouched and calls next; a refusing one writes 403 `{code: 403, message}` and does not |
| RoleGates.RequireRole | apps/bff/src/middleware/roles.ts:8-19 | the shared role gate leaves exactly the outcome of `GateOutcome` for the role test |
| RoleGates.RequireAdmin | apps/bff/src/middleware/roles.ts:24-35 | the shared admin gate passes when `admin` is among the roles or the user name is `admin` |
| RoleGates.SingleRoleIsList | apps/bff/src/middleware/roles.ts:9 | a single role behaves as the one-element list |
| RoleGates.AdminRoleSuffices | apps/bff/src/middleware/roles.ts:27-29 | whoever passes `requireRole('admin')` passes `requireAdmin` |
| RoleGates.AdminByNameOnly | apps/bff/src/middleware/roles.ts:28-29 | a user named admin without the admin role passes `requireAdmin` but not `requireRole('admin')` |
| GatewayRoles.RequireRole | apps/bff/src/middleware/roles.ts:8-19 | next runs exactly when a listed role is held; otherwise 403 with 权限不足 and nothing else changes |
| GatewayRoles.RequireAdmin | apps/bff/src/middleware/roles.ts:24-35 | next runs exactly for the admin role or user name; otherwise 403 with 需要管理员权限 |
| PackageRoles.RequireRole | packages/middlewares/src/roles.ts:3-14 | the package copy: next exactly when a listed role is held, otherwise 403 with 权限不足 |
| PackageRoles.RequireAdmin | packages/middlewares/src/roles.ts:16-27 | the package copy: next exactly for the admin role or user name, otherwise 403 with 需要管理员权限 |
| ErrorBoundary.ThrownStatus | apps/bff/src/middleware/error.ts:20 | the error's status when it is truthy, and nothing otherwise |
| ErrorBoundary.AssignedStatus | apps/bff/src/middleware/error.ts:20 | the value assigned: the thrown truthy status; otherwise a current status of 400 or more; otherwise 500 |
| ErrorBoundary.StatusSet | apps/bff/src/middleware/error.ts:20 | Koa's status setter accepts exactly an integer from 100 to 999 and throws on anything else |
| ErrorBoundary.FinalStatus | apps/bff/src/middleware/error.ts:20 | a thrown truthy status decides alone, and the assignment throws unless Koa accepts it; otherwise a status already of 400 or more is kept; otherwise 500 |
| ErrorBoundary.ThrownStatusWins | apps/bff/src/middleware/error.ts:20 | a thrown status Koa accepts becomes the final status; any other truthy one (a string, a fraction, 1000) makes the catch block throw |
| ErrorBoundary.ErrorBody | apps/bff/src/middleware/error.ts:21-24 | the body's code is the final status; its message is the error's truthy message, else `Internal Error`; a stack appears only when details are shown |
| ErrorBoundary.Caught | apps/bff/src/middleware/error.ts:19-25 | when the status assignment succeeds the context is an error response with the final status and only status and body changed; when it throws the error escapes with the context as it was |
| ErrorBoundary.Error | apps/bff/src/middleware/error.ts:12-28 | a chain that does not throw is left as it ended and nothing is logged; a throw is logged once when logging is on and gives `Caught`: an answered error response with details only in development, or an escaping throw exactly when the status setter refuses |
| ErrorBoundary.CodeMatchesStatus | apps/bff/src/middleware/error.ts:20-21 | the body's code always equals the final status |
| ErrorBoundary.ExistingErrorStatusKept | apps/bff/src/middleware/error.ts:20 | an error status already set survives an exception that carries no status |
| ErrorBoundary.StatuslessAnswered | apps/bff/src/middleware/error.ts:20 | an error without a truthy status is always answered: only an error's own status can make the catch block throw |
| ErrorBoundary.NoStackOutsideDevelopment | apps/bff/src/middleware/error.ts:22-24 | outside development no stack is written |
| GatewayError.Error | apps/bff/src/middleware/error.ts:12-28 | this file's middleware with the defaults `showDetailsInDev = true`, `logErrors = true` behaves as the shared boundary, escaping throw included |
| PackageError.Error | packages/middlewares/src/error.ts:5-20 | the package copy behaves as the shared boundary, escaping throw included |
| FixedWindow.Merge | apps/bff/src/middleware/rateLimit.ts:20-26 | each option that is given wins over its default, one by one |
| FixedWindow.RateStore.constructor | apps/bff/src/middleware/rateLimit.ts:17 | the module-level store starts empty |
| FixedWindow.Current | apps/bff/src/middleware/rateLimit.ts:32-36 | the stored record stays in force up to and including `now == resetTime`; a missing or expired one is replaced by count 0 and `resetTime = now + windowMs` |
| FixedWindow.RetryAfter | apps/bff/src/middleware/rateLimit.ts:39 | `retryAfter` is the ceiling of the remaining milliseconds over 1000 |
| FixedWindow.After | apps/bff/src/middleware/rateLimit.ts:32-42 | only the current key's record changes: it is the record in force, its count raised by one unless it has reached `max` |
| FixedWindow.TooMany | apps/bff/src/middleware/rateLimit.ts:39 | the rejection body carries code 429 |
| FixedWindow.Respond | apps/bff/src/middleware/rateLimit.ts:37-46 | a count at or above `max` gives 429 with the headers untouched and no next; otherwise status and body stay, the three `X-RateLimit-*` headers are set (Remaining is `max` minus the new count) and next runs |
| FixedWindow.Limit | apps/bff/src/middleware/rateLimit.ts:28-47 | an excluded path calls next and touches neither the response nor the store; any other request updates the store as `After` and answers as `Respond` |
| FixedWindow.Count | apps/bff/src/middleware/rateLimit.ts:32-42 | the store half: the record in force is returned and the store becomes `After` |
| FixedWindow.Answer | apps/bff/src/middleware/rateLimit.ts:37-46 | the response half answers exactly as `Respond` |
| FixedWindow.IsExcluded | apps/bff/src/middleware/rateLimit.ts:29 | the loop finds a prefix of the path among `excludePaths` exactly when one exists |
| FixedWindow.AfterBounded | apps/bff/src/middleware/rateLimit.ts:37-44 | with `max >= 0` every count stays within `0..max`, so Remaining is never negative |
| FixedWindow.AfterWithin | apps/bff/src/middleware/rateLimit.ts:33-34 | with a non-decreasing clock every window ends at most `windowMs` after the latest request |
| FixedWindow.RetryAfterBound | apps/bff/src/middleware/rateLimit.ts:34-39 | under that invariant a rejection's `retryAfter` lies between 0 and `ceil(windowMs/1000)` |
| FixedWindow.AdmittedInWindow | apps/bff/src/middleware/rateLimit.ts:37-42 | within one window a key that has used `c` of `max` is admitted exactly `min(n, max - c)` of `n` further requests |
| FixedWindow.FreshKeyAdmitsAtMostMax | apps/bff/src/middleware/rateLimit.ts:33-42 | a fresh key is admitted exactly `min(n, max)` times within the window its first request opens |
| FixedWindow.SharedCounter | apps/backend/src/middleware/rateLimit.ts:10 | limiters sharing one store and one key draw on one counter: every request admitted under a larger `max` adds one, and once the count reaches a smaller `max` the smaller limiter refuses without changing the store |
| GatewayRateLimit.Configure | apps/bff/src/middleware/rateLimit.ts:19-26 | without options: 60000 ms, 100 requests, `['/health']` excluded, message `Too Many Requests`, key the client IP; a given `max` is used |
| GatewayRateLimit.RateLimit | apps/bff/src/middleware/rateLimit.ts:28-47 | the gateway middleware over its own store: excluded paths bypass untouched; others update the store as `After` and answer as `Respond` |
| GatewayRateLimit.HealthBypasses | apps/bff/src/middleware/rateLimit.ts:24-29 | with the defaults every path under `/health` bypasses the limiter |
| PackageRateLimit.Configure | packages/middlewares/src/rateLimit.ts:11-17 | each missing option takes its default: 60000 ms, 100, `['/health']`, the client IP |
| PackageRateLimit.RateLimit | packages/middlewares/src/rateLimit.ts:18-37 | the package middleware over its own store, with the same bypass, store update and answer |
| PackageRateLimit.SameAsGateway | packages/middlewares/src/rateLimit.ts:10-17 | for every choice of options the package copy's settings equal the gateway's |
| BackendRateLimit.Configure | apps/backend/src/middleware/rateLimit.ts:16-23 | each missing option takes this file's default: 60000 ms, 100, `['/health', '/metrics']`, 请求过于频繁，请稍后再试 |
| BackendRateLimit.RateLimit | apps/backend/src/middleware/rateLimit.ts:25-61 | over `rateLimitStore`: excluded paths bypass untouched; others update the store as `After` and answer as `Respond` |
| BackendRateLimit.UserKey | apps/backend/src/middleware/rateLimit.ts:71-73 | a truthy `ctx.userId` keys the counter `user:<id>`, any other caller `ip:<address>` |
| BackendRateLimit.UserRateLimit | apps/backend/src/middleware/rateLimit.ts:68-75 | `userRateLimit` always keys by `UserKey` |
| BackendRateLimit.ApiRateLimit | apps/backend/src/middleware/rateLimit.ts:81-88 | `apiRateLimit` always keys by `api:<ip>:<method>:<path>` |
| BackendRateLimit.StrictRateLimit | apps/backend/src/middleware/rateLimit.ts:94-101 | 300000 ms, 10 requests and its own message, each unless the caller overrides it |
| BackendRateLimit.RelaxedRateLimit | apps/backend/src/middleware/rateLimit.ts:107-114 | 60000 ms and 1000 requests, each unless the caller overrides it |
| BackendRateLimit.UserKeyWins | apps/backend/src/middleware/rateLimit.ts:69-73 | a caller-supplied key generator cannot displace the user key, since it is spread first |
| BackendRateLimit.UserAndAddressKeysDiffer | apps/backend/src/middleware/rateLimit.ts:72 | a signed-in caller and an anonymous one never share a counter |
| BackendRateLimit.MetricsExempt | apps/backend/src/middleware/rateLimit.ts:22 | these defaults exempt `/metrics`, which the gateway's defaults do not |
| CorsPolicy.MergeCors | packages/middlewares/src/cors.ts:13-20 | each given option wins over its default, one by one |
| CorsPolicy.AllowOrigin | packages/middlewares/src/cors.ts:23-35 | a fixed origin is allowed when it is `*` or equals the request's Origin and is echoed as configured; a list allows exactly its members and echoes the request's origin; a function's value is always sent |
| CorsPolicy.Emitted | packages/middlewares/src/cors.ts:23-40 | Allow-Origin exactly when the origin is allowed; Allow-Credentials `true` exactly when credentials are on; Methods, Headers and Expose joined by `, ` exactly when non-empty; Max-Age exactly when non-zero |
| CorsPolicy.WrittenOverlays | packages/middlewares/src/cors.ts:27-40 | the successive `ctx.set` calls overlay the emitted headers on the existing ones |
| CorsPolicy.Cors | packages/middlewares/src/cors.ts:22-46 | the emitted headers are added; an OPTIONS request gets 204 and no next, any other request calls next with the status untouched |
| CorsPolicy.ListEchoesOnlyMembers | packages/middlewares/src/cors.ts:28-30 | a list rule sends Allow-Origin only for a listed origin, and only that origin |
| CorsPolicy.WildcardAllowsAll | packages/middlewares/src/cors.ts:25-27 | the `*` rule sends `*` to every request, with or without an Origin header |
| BackendCors.Configure | apps/backend/src/middlewares/cors.ts:13-21 | this file's defaults: no options give the defaults, credentials off, no exposed headers |
| BackendCors.Cors | apps/backend/src/middlewares/cors.ts:23-76 | the headers are added as emitted by the shared policy; OPTIONS gives 204 without next |
| BackendCors.DefaultOrigin | apps/backend/src/middlewares/cors.ts:84-100 | in development the request's origin is echoed (`*` without one); elsewhere a listed origin is echoed and any other gets a listed origin |
| BackendCors.DefaultCors | apps/backend/src/middlewares/cors.ts:83-114 | the preset sends credentials, a max age of 86400, allows PATCH and OPTIONS, and always answers the origin function's value |
| BackendCors.UnlistedOriginGetsFirst | apps/backend/src/middlewares/cors.ts:99 | outside development an unlisted origin gets `http://localhost:3000` as its Allow-Origin |
| BackendCors.PresetWildcardOnlyInDevelopment | apps/backend/src/middlewares/cors.ts:94-99 | the preset sends `*` only in development to a request without an Origin header (or with the literal origin `*`) |
| PackageCors.Configure | packages/middlewares/src/cors.ts:12-20 | no options give this file's defaults; a missing origin is `*` |
| PackageCors.Cors | packages/middlewares/src/cors.ts:22-46 | the package middleware adds the emitted headers and answers OPTIONS with 204 |
| PackageCors.DefaultsAllowAnyWithCredentials | packages/middlewares/src/cors.ts:14-19 | with the defaults every response carries `*`, `Allow-Credentials: true` and a Max-Age |
| JwtGate.BearerToken | packages/middlewares/src/jwtAuth.ts:30-37 | a token exists exactly when the header splits on spaces into two parts, the first `Bearer`; it is the second part |
| JwtGate.BearerShape | packages/middlewares/src/jwtAuth.ts:30-31 | a header is accepted exactly when it is `Bearer`, one space and a token without spaces (the Authorization form of section 2.1 of RFC 6750, without its tolerance for other spacing) |
| JwtGate.BearerOf | packages/middlewares/src/jwtAuth.ts:30-37 | `Bearer <t>` yields `t` for every space-free `t`, the empty token included |
| JwtGate.DoubleSpaceRefused | packages/middlewares/src/jwtAuth.ts:31 | two spaces after `Bearer` are refused |
| JwtGate.RolesOf | packages/middlewares/src/jwtAuth.ts:43 | the decoded `roles` are kept when they are an array |
| JwtGate.Decide | packages/middlewares/src/jwtAuth.ts:17-53 | an excluded path passes untouched; no header gives 401 未提供认证令牌 when required and passes otherwise; a header that does not split into `Bearer` and one token gives 401 认证令牌格式错误; a token that fails verification gives 401 认证令牌无效或已过期; a verified token records the identity, then gives 403 权限不足 when roles are demanded and none is shared, and passes otherwise; a pass with a header always means a verified token whose roles are stored as an array |
| JwtGate.Finish | packages/middlewares/src/jwtAuth.ts:54-58 | inside the try, an exception thrown downstream becomes the 401 response |
| JwtGate.JwtAuth | packages/middlewares/src/jwtAuth.ts:17-59 | a stop writes the decision and skips next; an unguarded pass runs next, which may throw out; a guarded pass runs next inside the try |
| JwtGate.CheckToken | packages/middlewares/src/jwtAuth.ts:30-52 | the loop-free header steps leave exactly the decision's view, and pass exactly when it does |
| JwtGate.SetIdentity | packages/middlewares/src/jwtAuth.ts:41-43 | the three writes set `userId`, `user` and `roles` in the state and nothing else |
| JwtGate.LoginExempt | packages/middlewares/src/jwtAuth.ts:14-18 | with the defaults the login route passes without any header |
| JwtGate.PassRecordsIdentity | packages/middlewares/src/jwtAuth.ts:40-43 | an accepted token leaves its decoded identity in the state, `userId` the decoded one |
| LegacyProxy.ForwardHeaders | apps/bff/src/middleware/legacyProxy.ts:23-35 | the forwarded headers are a subset of Authorization, X-Trace-Id, Accept, Content-Type and Cookie, and none is empty |
| LegacyProxy.ForwardsAuthorization | apps/bff/src/middleware/legacyProxy.ts:25-31 | Authorization is forwarded exactly when the request carries one, unchanged |
| LegacyProxy.ForwardsTraceId | apps/bff/src/middleware/legacyProxy.ts:26-32 | X-Trace-Id is forwarded exactly when a trace id is known, `state.traceId` before the inbound header |
| LegacyProxy.ForwardsOthers | apps/bff/src/middleware/legacyProxy.ts:28-35 | Accept, Content-Type and Cookie are forwarded exactly when present and non-empty |
| LegacyProxy.StripTrailingSlash | apps/bff/src/middleware/legacyProxy.ts:38 | at most one trailing slash is removed, and one is removed whenever there is one |
| LegacyProxy.ForwardUrl | apps/bff/src/middleware/legacyProxy.ts:44 | the query string is appended after `?` unchanged, and only when non-empty |
| LegacyProxy.OutboundFor | apps/bff/src/middleware/legacyProxy.ts:45-52 | the request carries only allow-listed headers; a body is sent exactly for a method other than GET or DELETE with a truthy body, and then Content-Type is present, `application/json` when none was forwarded; every other header is the forwarded one |
| LegacyProxy.ReconcileJson | apps/bff/src/middleware/legacyProxy.ts:58-69 | truthy parsed JSON becomes the body unchanged |
| LegacyProxy.ReconcileText | apps/bff/src/middleware/legacyProxy.ts:70-76 | non-empty text that is not JSON becomes `{code: status, message: text}` |
| LegacyProxy.ReconcileNoText | apps/bff/src/middleware/legacyProxy.ts:77-79 | empty or unreadable text becomes `{code: status, message: 'Upstream response without JSON'}` |
| LegacyProxy.ReconcileSingleParse | apps/bff/src/middleware/legacyProxy.ts:60-76 | the second parse adds nothing: non-empty text gives its parsed value, falsy values included, else the text envelope |
| LegacyProxy.ApiNotDoubled | apps/bff/src/middleware/legacyProxy.ts:38-43 | with the base path ending in `/api` and the request under `/api/`, the `/api` prefix appears once |
| LegacyProxy.RootBaseKeepsPath | apps/bff/src/middleware/legacyProxy.ts:43 | an empty or root base path forwards the request path as it is |
| LegacyProxy.Proxy | apps/bff/src/middleware/legacyProxy.ts:15-80 | an answered request (body set, or a status other than 404) or a path outside `/api/` is left alone and nothing is sent; a missing base URL throws 500 and an invalid one throws, sending nothing; otherwise exactly one request is sent and the status and reconciled body are written |
| LegacyProxy.CollectHeaders | apps/bff/src/middleware/legacyProxy.ts:23-35 | the step-by-step writes build exactly `ForwardHeaders` |
| LegacyProxy.WriteReply | apps/bff/src/middleware/legacyProxy.ts:67-79 | the upstream status is mirrored and the reconciled body written; nothing else changes |
| DashboardSchema.PositiveIsNonNegative | apps/bff/src/schemas/admin/dashboard.schema.ts:26-32 | a positive integer is a non-negative one that is not 0 |
| DashboardSchema.DefaultsValid | apps/bff/src/schemas/admin/dashboard.schema.ts:41-51 | the all-zero, all-empty overview satisfies the overview schema, with or without `meta` |
| NestDashboard.Clamp | apps/backend-integrated/src/modules/dashboard/dashboard.controller.ts:28-29 | the result is always a finite number in `(0, max]`: the query's `Number` when it is non-empty and in range, the default otherwise |
| NestDashboard.SafeDays | apps/backend-integrated/src/modules/dashboard/dashboard.controller.ts:27-31 | the days handed to the service lie in `(0, 180]`; an absent or empty query gives 30 |
| NestDashboard.SafeLimit | apps/backend-integrated/src/modules/dashboard/dashboard.controller.ts:43-47 | the limit handed to the service lies in `(0, 100]`; an absent or empty query gives 10 |
| NestDashboard.ClampIdempotent | apps/backend-integrated/src/modules/dashboard/dashboard.controller.ts:28-29 | clamping the text of a clamped value gives it back |
| NestDashboard.OutOfRangeFallsBack | apps/backend-integrated/src/modules/dashboard/dashboard.controller.ts:29 | NaN, infinity, 0 and 181 days all fall back to 30 |
| DashboardService.UnwrapData | apps/bff/src/services/admin/dashboard.service.ts:66-67 | a truthy payload with a defined `data` gives `data`; anything else gives the payload itself |
| DashboardService.ToNum | apps/bff/src/services/admin/dashboard.service.ts:81 | the result is always finite, and non-zero only when the input was exactly that number |
| DashboardService.SafeJson | apps/bff/src/services/admin/dashboard.service.ts:87-94 | success yields the payload and no error; failure yields undefined and exactly one `<label>:<reason>` error |
| DashboardService.ListOf | apps/bff/src/services/admin/dashboard.service.ts:134-142 | the unwrapped payload when it is an array, else [] |
| DashboardService.Growth | apps/bff/src/services/admin/dashboard.service.ts:153-155 | no more points than the input, each with a non-empty date and a finite count |
| DashboardService.Distribution | apps/bff/src/services/admin/dashboard.service.ts:156-158 | no more items than the input, each with a non-empty name and a finite value |
| DashboardService.Activities | apps/bff/src/services/admin/dashboard.service.ts:159-171 | no more activities than the input, each passing the id/title/timestamp filter with a finite id |
| DashboardService.Failures | apps/bff/src/services/admin/dashboard.service.ts:84-112 | at most four errors, and none exactly when all four labelled calls succeeded |
| DashboardService.ForwardedHeaders | apps/bff/src/services/admin/dashboard.service.ts:43-45 | X-Trace-Id and Authorization are forwarded exactly when non-empty, unchanged, and nothing else is |
| DashboardService.UpstreamErrorReason | apps/bff/src/services/admin/dashboard.service.ts:89-91 | a non-2xx upstream reply is recorded under its label as `Upstream Error` |
| DashboardService.MessagelessReason | apps/bff/src/services/admin/dashboard.service.ts:91 | a thrown value without a truthy message is recorded as `Upstream error` |
| DashboardService.AggregateAdminOverview | apps/bff/src/services/admin/dashboard.service.ts:36-179 | the step-by-step aggregator returns `Aggregate`; it asks for the four primary paths in order, then the two fallback counts exactly when the stats payload is falsy, and asks for nothing when the URL is unset |
| DashboardService.StatsStep | apps/bff/src/services/admin/dashboard.service.ts:115-131 | the stats block computes `StatsFor` and makes the two fallback calls exactly when the stats payload is falsy |
| DashboardService.SafeJsonStep | apps/bff/src/services/admin/dashboard.service.ts:87-94 | one `safeJson` call returns exactly the payload and errors of `SafeJson` |
| DashboardService.ToNumIff | apps/bff/src/services/admin/dashboard.service.ts:81 | `toNum` returns its argument exactly when that is a finite number, and 0 otherwise |
| DashboardService.MetaIffFailure | apps/bff/src/services/admin/dashboard.service.ts:172 | `meta` is present exactly when a labelled call failed, and then joins the failures with ` \| ` |
| DashboardService.FallbackOnlyWithoutStats | apps/bff/src/services/admin/dashboard.service.ts:122 | with a truthy stats payload the fallback calls do not affect the result |
| DashboardService.FallbackFailuresSwallowed | apps/bff/src/services/admin/dashboard.service.ts:122-131 | failed fallback calls leave the counts 0 and add no error |
| DashboardService.EscapeGivesDefaults | apps/bff/src/services/admin/dashboard.service.ts:51-178 | any exception escaping the try gives the defaults with its reason as `meta.error` |
| DashboardService.UnsetUrlRejects | apps/bff/src/services/admin/dashboard.service.ts:46-49 | with the upstream URL unset the call rejects, since the client is built outside the try |
| DashboardService.NonArrayIsEmpty | apps/bff/src/services/admin/dashboard.service.ts:134-142 | a non-array payload gives three empty lists |
| DashboardService.GrowthFilter | apps/bff/src/services/admin/dashboard.service.ts:153-155 | when every point has a date, every point survives, in its place |
| DashboardService.GrowthDropsUndated | apps/bff/src/services/admin/dashboard.service.ts:155 | points without a date are all dropped |
| DashboardService.PickTotalCount | apps/bff/src/services/admin/dashboard.service.ts:70-78 | `pickTotal` of a payload whose numbers are non-negative integers is a non-negative integer |
| DashboardService.GrowthValid | apps/bff/src/services/admin/dashboard.service.ts:153-155 | with non-negative integer counts upstream, every growth point satisfies its schema |
| DashboardService.DistributionValid | apps/bff/src/services/admin/dashboard.service.ts:156-158 | with non-negative integer values upstream, every distribution item satisfies its schema |
| DashboardService.ActivitiesValid | apps/bff/src/services/admin/dashboard.service.ts:159-171 | with integer ids upstream and positive user ids, every kept activity satisfies its schema |
| DashboardService.StatsConform | apps/bff/src/services/admin/dashboard.service.ts:115-131 | non-negative integer counts upstream give schema-valid stats |
| DashboardService.Conformance | apps/bff/src/services/admin/dashboard.service.ts:145-173 | the result satisfies the overview schema when every upstream number is a non-negative integer and every activity user has a positive id |
| DashboardService.NegativeCountBreaksSchema | apps/bff/src/services/admin/dashboard.service.ts:81-116 | a negative upstream `userCount` passes `toNum` and breaks the schema |
| DashboardService.IdlessUserBreaksSchema | apps/bff/src/services/admin/dashboard.service.ts:166-171 | an activity user without an id keeps id 0 and breaks the schema, while the filter tests only the activity's own id, title and timestamp |
| BackendAuth.FindUser | apps/backend/src/middlewares/auth.ts:58 | a user is found only for a `userId` the primary-key lookup reads as a key (an integral number or its decimal text), and it is the row the user table holds under that key |
| BackendAuth.RoleCodes | apps/backend/src/middlewares/auth.ts:83 | a code is listed exactly when some role row carries it and it is not empty; no more codes than rows |
| BackendAuth.RoleIds | apps/backend/src/middlewares/auth.ts:84 | an id is listed exactly when some present role carries it and it is not 0; the list is empty exactly when every present role has id 0 |
| BackendAuth.PermissionCodes | apps/backend/src/middlewares/auth.ts:98-109 | a permission code is listed exactly when it is non-empty and attached to one of the given role ids |
| BackendAuth.CodeList | apps/backend/src/middlewares/auth.ts:122 | `ctx.roles` is a JSON list holding exactly the role codes |
| BackendAuth.Authorise | apps/backend/src/middlewares/auth.ts:57-122 | a `userId` the lookup refuses (a boolean, an object, a text that is not an integer) gives 500 认证处理失败; an unknown user 401 用户不存在, a disabled one 403 用户已被禁用; a request passes only for an enabled user who holds a required role (when roles are configured) and a required permission (when permissions are configured and the user has role ids) |
| BackendAuth.Decide | apps/backend/src/middlewares/auth.ts:19-122 | an excluded path passes untouched; a missing header gives 401 未提供认证令牌 when required, else passes; a header that is not `Bearer <token>` gives 401 认证令牌格式错误; a token that does not verify gives 401 认证令牌无效或已过期; otherwise `Authorise` decides |
| BackendAuth.Finish | apps/backend/src/middlewares/auth.ts:124-128 | an exception from downstream becomes 500 认证处理失败; otherwise the downstream result stands |
| BackendAuth.JwtAuth | apps/backend/src/middlewares/auth.ts:16-130 | a stopped request keeps the rejection `Decide` wrote; a passed one runs the chain, whose exception becomes 500 |
| BackendAuth.Check | apps/backend/src/middlewares/auth.ts:27-55 | reading the header and the token leaves the context as `Decide` states, and passes exactly when `Decide` does |
| BackendAuth.CheckUser | apps/backend/src/middlewares/auth.ts:57-122 | the database lookups leave the context as `Authorise` states, and pass exactly when it does |
| BackendAuth.RolelessSkipsPermissions | apps/backend/src/middlewares/auth.ts:97 | a user without role ids is never checked for permissions: the configured permissions make no difference |
| BackendAuth.PermissionGranted | apps/backend/src/middlewares/auth.ts:97-116 | a user holding a role that carries a required permission passes |
| BackendAuth.RoleDecision | apps/backend/src/middlewares/auth.ts:136-155 | no roles or an empty list gives 403 权限不足; otherwise the guard passes on a shared role and gives 403 naming the required roles when none is shared |
| BackendAuth.RoleDecisionIff | apps/backend/src/middlewares/auth.ts:140-153 | the guard calls `next()` exactly when the caller holds one of the roles, and answers 403 otherwise |
| BackendAuth.RequireRole | apps/backend/src/middlewares/auth.ts:136-155 | the middleware computes `RoleDecision` |
| BackendAuth.RequireAny | apps/backend/src/middlewares/auth.ts:161-197 | a fixed-role guard calls `next()` exactly when the caller holds one of the accepted roles; otherwise it answers 403 with its message and nothing else changes |
| BackendAuth.RequireAdmin | apps/backend/src/middlewares/auth.ts:161-169 | passes exactly when `ctx.roles` holds 'admin'; otherwise 403 需要管理员权限 |
| BackendAuth.RequireTeacher | apps/backend/src/middlewares/auth.ts:175-183 | passes exactly when `ctx.roles` holds 'teacher' or 'admin'; otherwise 403 需要教师权限 |
| BackendAuth.RequireStudent | apps/backend/src/middlewares/auth.ts:189-197 | passes exactly when `ctx.roles` holds 'student' or 'admin'; otherwise 403 需要学生权限 |
| BackendAuth.AcceptedPair | apps/backend/src/middlewares/auth.ts:176-190 | holding one of two roles is holding either one of them |
| BackendAuth.SelfDecision | apps/backend/src/middlewares/auth.ts:203-225 | without a logged-in user, 401 未登录; otherwise the guard passes exactly when the parsed parameter is the caller's id or the caller is an admin, and answers 403 只能访问自己的资源 otherwise |
| BackendAuth.RequireSelfOrAdmin | apps/backend/src/middlewares/auth.ts:203-225 | the middleware computes `SelfDecision` |
| BackendAuth.OwnIdPasses | apps/backend/src/middlewares/auth.ts:205-217 | a caller reaches their own record through its decimal id |
| BackendAuth.NonNumericIdNeedsAdmin | apps/backend/src/middlewares/auth.ts:205-217 | an id parameter that does not parse (NaN) matches nobody, so only an admin gets through |
| BackendError.BaseStatus | apps/backend/src/middlewares/error.ts:33-35 | the status is at least 400, and a status already at 400 or above is kept |
| BackendError.BuiltIn | apps/backend/src/middlewares/error.ts:38-81 | ValidationError, UnauthorizedError, ForbiddenError, NotFoundError and ConflictError give 400, 401, 403, 404 and 409; otherwise an `ECONNREFUSED` code gives 503 and anything else keeps the defaulted status |
| BackendError.ErrorReply | apps/backend/src/middlewares/error.ts:38-96 | the reply's `code` member is its code; a custom mapping for the error's name decides the code, else the built-in table does; a stack or details member appears only in development with details enabled |
| BackendError.Handled | apps/backend/src/middlewares/error.ts:32-98 | only the status and body change; the status equals the reply's code, chosen by the mapping first, then by the built-in table; details only in development |
| BackendError.Classify | apps/backend/src/middlewares/error.ts:44-81 | the if/else chain computes `BuiltIn` |
| BackendError.ErrorHandler | apps/backend/src/middlewares/error.ts:13-101 | when the rest of the chain does not throw its result stands and nothing is logged; when it throws, the context becomes `Handled` and the error is logged exactly when `logErrors` is set |
| BackendError.HandleError | apps/backend/src/middlewares/error.ts:19-98 | the catch block leaves the context as `Handled` states |
| BackendError.BuildReply | apps/backend/src/middlewares/error.ts:33-96 | the statement sequence computes `ErrorReply` |
| BackendError.MappingOverrides | apps/backend/src/middlewares/error.ts:84-90 | a custom mapping wins over the built-in table even for a built-in name |
| BackendError.UnsetStatusKeeps404 | apps/backend/src/middlewares/error.ts:33-35 | an unnamed error thrown while the status is still Koa's default 404 answers 404, not 500 |
| BackendError.NotFound | apps/backend/src/middlewares/error.ts:110-118 | a 404, or a 200 without a body, becomes a 404 envelope naming the path and method; any other response is left unchanged |
| BackendError.NotFoundHandler | apps/backend/src/middlewares/error.ts:107-119 | an exception from the chain passes through untouched; otherwise the context becomes `NotFound` of what the chain left |
| BackendLogger.Spread | apps/backend/src/middlewares/logger.ts:101 | spreading an object keeps its entries; spreading an array gives one entry per element, in order |
| BackendLogger.IndexedKeys | apps/backend/src/middlewares/logger.ts:101 | a spread array's keys are "0", "1", … |
| BackendLogger.Redact | apps/backend/src/middlewares/logger.ts:103-107 | redaction keeps every key in place and changes a value only to `[REDACTED]` |
| BackendLogger.Sanitize | apps/backend/src/middlewares/logger.ts:96-117 | a falsy value or a non-object comes back unchanged; an object or array comes back as an object |
| BackendLogger.Walk | apps/backend/src/middlewares/logger.ts:110-114 | each object-valued entry is replaced by its sanitised copy and every other entry is kept |
| BackendLogger.SanitizeData | apps/backend/src/middlewares/logger.ts:96-117 | the copy-redact-recurse statements compute `Sanitize` |
| BackendLogger.RedactFields | apps/backend/src/middlewares/logger.ts:103-107 | the redaction loop computes `Redact` |
| BackendLogger.SanitizeChildren | apps/backend/src/middlewares/logger.ts:110-114 | the recursion loop computes `Walk` |
| BackendLogger.RedactEntries | apps/backend/src/middlewares/logger.ts:103-107 | with distinct keys, an entry becomes `[REDACTED]` exactly when its key is sensitive and its value truthy |
| BackendLogger.RedactStep | apps/backend/src/middlewares/logger.ts:104-106 | one pass of the loop redacts the one field, if truthy, and keeps the keys distinct |
| BackendLogger.PutEntries | apps/backend/src/middlewares/logger.ts:105 | assigning an existing key changes that entry only |
| BackendLogger.SpreadDistinct | apps/backend/src/middlewares/logger.ts:101 | a spread array has distinct keys; a spread object keeps its own distinct keys |
| BackendLogger.SanitizedEntries | apps/backend/src/middlewares/logger.ts:101-116 | with distinct keys, every entry is redacted first and then, if it is an object, sanitised in turn |
| BackendLogger.SanitizeClean | apps/backend/src/middlewares/logger.ts:96-117 | at every depth, no sensitive field of the result holds a truthy value other than `[REDACTED]` |
| BackendLogger.NonObjectClean | apps/backend/src/middlewares/logger.ts:97-99 | a value returned unchanged because it is not an object holds no sensitive entries |
| BackendLogger.TopLevelRedaction | apps/backend/src/middlewares/logger.ts:103-107 | a truthy sensitive field becomes `[REDACTED]`; a falsy one keeps its value |
| BackendLogger.NestedSanitised | apps/backend/src/middlewares/logger.ts:110-114 | a nested object under a non-sensitive key is replaced by its sanitised copy |
| BackendLogger.ArrayBecomesObject | apps/backend/src/middlewares/logger.ts:101 | an array comes back as an object keyed "0", "1", … with one entry per element |
| BackendLogger.RedactHeaders | apps/backend/src/middlewares/logger.ts:46 | the headers keep their names; a non-empty sensitive header becomes `[REDACTED]` and every other header is kept |
| BackendLogger.Logger | apps/backend/src/middlewares/logger.ts:13-90 | the chain's context passes through; nothing is logged exactly for an excluded path; otherwise the start line carries the verb, url, user agent, ip and `userId`, the redacted headers and the sanitised request body (when `logBody` and truthy); after the chain, a completion line with its final status, `userId` and the sanitised response body (when `logResponse` and truthy), or, when it threw, a failure line with `ctx.status \|\| 500` and the error's message, the exception rethrown; a thrown `null` leaves no failure line and escapes as the TypeError raised by reading its `message` |
| BackendLogger.HealthNotLogged | apps/backend/src/middlewares/logger.ts:17-26 | with the defaults, anything under `/health` or `/metrics` is not logged |
| BackendLogger.AccessLevel | apps/backend/src/middlewares/logger.ts:146-152 | 500 and above is an error, 400 to 499 a warning, anything else an info line |
| BackendLogger.AccessLogger | apps/backend/src/middlewares/logger.ts:123-153 | the chain's result and exception pass through; one line is logged exactly when the path is not skipped and the chain did not throw, carrying the final status and its level |
| BackendLogger.HealthSubpathDiffers | apps/backend/src/middlewares/logger.ts:26-128 | `/health/db` is skipped by `logger` but logged by `accessLogger` |
| Validation.ValidationErrorValue | apps/backend/src/middleware/validation.ts:12-22 | the error is named `ValidationError`, carries status code 400 and the per-field errors |
| Validation.MissingFields | apps/backend/src/middleware/validation.ts:30-36 | a field is reported exactly when it is required and is undefined, null or the empty string; no more fields than required |
| Validation.MissingErrors | apps/backend/src/middleware/validation.ts:39-42 | each missing field gets the message "<field> 不能为空", and no other field gets an entry |
| Validation.CollectMissing | apps/backend/src/middleware/validation.ts:30-36 | the loop collects `MissingFields` |
| Validation.ValidateRequired | apps/backend/src/middleware/validation.ts:27-49 | `next()` runs exactly when nothing is thrown, and exactly when every required field is present; otherwise the thrown error names every missing field |
| Validation.BuildErrors | apps/backend/src/middleware/validation.ts:39-42 | the `forEach` builds `MissingErrors` |
| Validation.NoneMissing | apps/backend/src/middleware/validation.ts:38 | nothing is reported exactly when every required field is present |
| Validation.ZeroAndFalsePresent | apps/backend/src/middleware/validation.ts:33 | 0 and false are present values; the empty string and null are missing |
| Validation.CheckPage | apps/backend/src/middleware/validation.ts:60-69 | an absent page becomes 1, a valid one is written back as its parsed integer, and an invalid one is left and reported |
| Validation.CheckSize | apps/backend/src/middleware/validation.ts:72-81 | an absent size becomes 10, a valid one is written back parsed, and an invalid one is left and reported after the page error |
| Validation.ValidatePagination | apps/backend/src/middleware/validation.ts:54-90 | on errors only the query object changes, to what the checks wrote into it, and the thrown error lists them; otherwise the query is assigned through Koa's setter as `QueryAssigned` states and `next()` runs |
| Koa.QueryAssigned | apps/backend/src/middleware/validation.ts:87 | after `ctx.query = obj` the query string is the stringified object; when it equals the old one nothing else changes and later reads give the object; otherwise the url carries the new text and later reads give its parse; nothing else in the request changes |
| Validation.PageStep | apps/backend/src/middleware/validation.ts:60-69 | the page branch computes `CheckPage` |
| Validation.SizeStep | apps/backend/src/middleware/validation.ts:72-81 | the size branch computes `CheckSize` |
| Validation.PaginationAccepts | apps/backend/src/middleware/validation.ts:60-85 | the checks pass exactly when each parameter is absent or valid; then page is an integer of at least 1 and size an integer from 1 to 100 |
| Validation.BothErrorsCollected | apps/backend/src/middleware/validation.ts:62-84 | two bad parameters are both reported, page first, in one throw |
| Validation.PaginationDefaults | apps/backend/src/middleware/validation.ts:67-80 | with neither parameter, page 1 and size 10 are written and nothing is reported |
| Validation.IdParam | apps/backend/src/middleware/validation.ts:97-109 | the middleware throws exactly when the parameter is null, undefined or not a positive integer; otherwise it stores the parsed id back, and that id is positive |
| Validation.ValidateIdParam | apps/backend/src/middleware/validation.ts:95-113 | `next()` runs exactly when `IdParam` passes; then the params are the stored-back ones, and otherwise the context is unchanged and the error is thrown |
| Validation.DecimalIdAccepted | apps/backend/src/middleware/validation.ts:103-109 | a positive decimal id is accepted and stored back as that number |
| Upload.Resolve | apps/backend/src/middleware/upload.ts:14-20 | without options the limits are 10 MB, JPEG/PNG/GIF/PDF, `uploads/`, no preserved names and 5 files; each given option replaces its default |
| Upload.ImageSettings | apps/backend/src/middleware/upload.ts:94-101 | the image preset is 5 MB of JPEG/PNG/GIF/WebP with 5 files, and a caller's option wins over the preset |
| Upload.DocumentSettings | apps/backend/src/middleware/upload.ts:107-119 | the document preset is 20 MB of PDF, Word and plain text with 5 files, and a caller's option wins over the preset |
| Upload.Entry | apps/backend/src/middleware/upload.ts:68-73 | the pushed record is an object that ends with the file's `/uploads/` URL |
| Upload.CheckFile | apps/backend/src/middleware/upload.ts:47-66 | a file passes exactly when it is not null, its type is allowed and it is not over the size limit; a refusal carries code 400 |
| Upload.FirstFailure | apps/backend/src/middleware/upload.ts:46-74 | a refusal of the scan carries code 400 |
| Upload.MapEachAt | apps/backend/src/middleware/upload.ts:38 | the i-th result is the function applied to the i-th element |
| Upload.Entries | apps/backend/src/middleware/upload.ts:68-73 | one record per accepted file |
| Upload.EntryAt | apps/backend/src/middleware/upload.ts:68-73 | the i-th record is the i-th file's, in order |
| Upload.Decide | apps/backend/src/middleware/upload.ts:22-79 | a non-multipart request goes on untouched; more files than `maxFiles` gives 400 naming the limit; any answer keeps the request and is a 400 or a 500 |
| Upload.Upload | apps/backend/src/middleware/upload.ts:13-88 | the middleware calls `next()` exactly when `Decide` continues; an answer is written without a throw; on the non-multipart path the chain's result and exception pass through; on the multipart path an exception from the chain becomes the 500 envelope |
| Upload.CheckFiles | apps/backend/src/middleware/upload.ts:46-74 | the loop stops at the first file that does not pass, and otherwise has pushed one record per file |
| Upload.PassIffEachPasses | apps/backend/src/middleware/upload.ts:46-74 | the scan passes exactly when every file passes both checks |
| Upload.FailureIsFirst | apps/backend/src/middleware/upload.ts:46-66 | a failed scan is decided by some file all of whose predecessors passed |
| Upload.TypeBeforeSize | apps/backend/src/middleware/upload.ts:48-66 | a file failing both checks is refused for its type, with the allowed types listed |
| Upload.CountBeforeFiles | apps/backend/src/middleware/upload.ts:40-46 | too many files are refused with 400 before any file is looked at, even a null one |
| Upload.UrlFromName | apps/backend/src/middleware/upload.ts:72 | a file named only by `name` is served under `/uploads/<name>` |
| Upload.DefaultSizeMessage | apps/backend/src/middleware/upload.ts:15-63 | the 10 MB default reads as "10MB" in the refusal |
| QueryWhere.Convert | apps/backend/src/types/query.ts:195-255 | a base condition becomes a test on its own field chosen by its operator; a composite becomes a group with an `and` list exactly when it had one, and an `or` list exactly when it had one, each of the same length |
| QueryWhere.ConvertAll | apps/backend/src/types/query.ts:243-249 | `map(convertToSequelizeWhere)`: same length, each child converted in place |
| QueryWhere.FieldsPreserved | apps/backend/src/types/query.ts:195-255 | the translation tests the same fields in the same order as the condition tree |
| QueryWhere.EqualAndUnknownArePlain | apps/backend/src/types/query.ts:201-234 | equality and any unrecognised operator both become `{field: value}` |
| QueryWhere.PatternsWrap | apps/backend/src/types/query.ts:217-224 | like and notLike wrap the text in `%` on both sides, startsWith appends `%`, endsWith prepends it |
| QueryWhere.NullTestsIgnoreValue | apps/backend/src/types/query.ts:225-228 | isNull and isNotNull ignore the value and test against null |
| QueryWhere.EmptyComposites | apps/backend/src/types/query.ts:238-254 | a composite with neither list gives `{}`; an empty `and` list is still emitted |
| NestExceptionFilter.Caught | apps/backend-integrated/src/common/filters/http-exception.filter.ts:13-61 | the filter itself throws exactly for an HTTP exception with a null response; otherwise the body is `{code, message}` with code the status; an HTTP exception keeps its status and its string or object message; a `ValidationError` gives 400 参数验证失败; anything else gives 500 服务器内部错误 |
| NestExceptionFilter.Reply | apps/backend-integrated/src/common/filters/http-exception.filter.ts:57-60 | the body has exactly `code` then `message` |
| NestExceptionFilter.TraceIdOf | apps/backend-integrated/src/common/filters/http-exception.filter.ts:37-40 | the trace id is `x-trace-id`, else `X-Trace-Id`, else `x-traceid` |
| NestExceptionFilter.Catch | apps/backend-integrated/src/common/filters/http-exception.filter.ts:13-61 | the branch-by-branch overwrites compute `Caught`, and the logged trace id is `TraceIdOf` |
| NestExceptionFilter.CodeIsStatus | apps/backend-integrated/src/common/filters/http-exception.filter.ts:19-58 | the body's code always equals the HTTP status |
| NestExceptionFilter.ObjectMessagePassesThrough | apps/backend-integrated/src/common/filters/http-exception.filter.ts:28-29 | an object response's array message is passed through unchanged |
| BaseController.Body | apps/backend/src/controllers/BaseController.ts:22-26 | the envelope is an object whose code, message and data are the given ones; an undefined data is absent |
| BaseController.Respond | apps/backend/src/controllers/BaseController.ts:16-49 | `success` and `error` set the status to the code and write the same code, message and data in the body |
| BaseController.NotFound | apps/backend/src/controllers/BaseController.ts:56-62 | status and body code 404, no data |
| BaseController.Unauthorized | apps/backend/src/controllers/BaseController.ts:69-75 | status and body code 401, no data |
| BaseController.Forbidden | apps/backend/src/controllers/BaseController.ts:82-88 | status and body code 403, no data |
| BaseController.ServerError | apps/backend/src/controllers/BaseController.ts:96-103 | status and body code 500, with the given data |
| BaseController.Send | apps/backend/src/controllers/BaseController.ts:22-27 | writing a reply changes the status and the body and nothing else |
| BaseController.HelpersAgree | apps/backend/src/controllers/BaseController.ts:16-103 | every helper's body code equals the status it sets |
| BaseController.Handled | apps/backend/src/controllers/BaseController.ts:151-169 | the body code is the status and the message is the service's; 2xx and 4xx codes are kept and every other code becomes 500; 401, 403 and 404 drop the data and every other code keeps it |
| BaseController.RedirectBecomesServerError | apps/backend/src/controllers/BaseController.ts:166-167 | a 3xx or 1xx envelope is answered as a 500 that keeps its message and data |
| BaseController.Finish | apps/backend/src/controllers/CourseController.ts:192-203 | a returned envelope is handled; a thrown error becomes a 500 with the handler's own message and no data |
| BaseController.Missing | apps/backend/src/controllers/BaseController.ts:113 | a parameter is listed exactly when it is required and falsy in the body; no more than required |
| BaseController.RequiredCheck | apps/backend/src/controllers/BaseController.ts:112-121 | no reply exactly when every required parameter is truthy; otherwise a 400 naming the missing ones |
| BaseController.RequiredIn | apps/backend/src/controllers/BaseController.ts:112-113 | a null or undefined body with required parameters makes the property read throw, answered with the handler's 500; otherwise `RequiredCheck` decides, and nothing required means nothing refused |
| BaseController.Validated | apps/backend/src/controllers/CourseController.ts:30-49 | a null body is a 500, a missing required field the 400, and otherwise the service's envelope is handled |
| BaseController.ValidateRequiredParams | apps/backend/src/controllers/BaseController.ts:112-121 | returns true exactly when nothing is missing, then the context is unchanged; otherwise only the status and body change, to the 400 |
| BaseController.MissingRefused | apps/backend/src/controllers/BaseController.ts:113-117 | a falsy required parameter is reported and the check fails |
| BaseController.NoneMissing | apps/backend/src/controllers/BaseController.ts:113-120 | with every required parameter truthy nothing is reported |
| BaseController.FalsyIsMissing | apps/backend/src/controllers/BaseController.ts:113 | 0, false, the empty string and an absent field all count as missing |
| BaseController.IntOr | apps/backend/src/controllers/BaseController.ts:130-131 | `parseInt(x) \|\| fallback` is the fallback or a non-zero parsed integer |
| BaseController.OptionalInt | apps/backend/src/controllers/AttendanceController.ts:132 | a falsy parameter stays undefined, a numeric one becomes its integer, and a non-numeric one becomes NaN |
| BaseController.ClassIdGuardNeverFires | apps/backend/src/controllers/AttendanceController.ts:132-136 | the guard as written refuses no class id, so a non-numeric one reaches the service as NaN |
| BaseController.ClassIdParsed | apps/backend/src/controllers/AttendanceController.ts:132-136 | past the corrected guard the class id is absent or a parsed integer, never NaN |
| BaseController.Pagination | apps/backend/src/controllers/BaseController.ts:129-144 | page and size are the parsed values or the defaults 1 and 10; the result is a page exactly when page ≥ 1 and 1 ≤ size ≤ 100, otherwise a 400 reply, naming the page when the page is the bad one |
| BaseController.ById | apps/backend/src/controllers/CourseController.ts:191-203 | an id that does not parse gives the handler's 400; otherwise the service is called with the parsed id and its outcome finished |
| BaseController.PagedById | apps/backend/src/controllers/AttendanceController.ts:78-95 | a bad id gives 400; bad paging writes a 400 that the catch overwrites with the handler's 500; otherwise the service gets the parsed id, page and size |
| BaseController.UndefinedIsNaN | apps/backend/src/controllers/BaseController.ts:130 | `parseInt(undefined)` is NaN |
| BaseController.LettersAreNaN | apps/backend/src/controllers/AttendanceController.ts:132 | `parseInt('abc')` is NaN |
| BaseController.ZeroIsZero | apps/backend/src/controllers/BaseController.ts:130 | `parseInt('0')` is 0 |
| BaseController.PaginationDefaults | apps/backend/src/controllers/BaseController.ts:130-131 | an absent page and size give page 1 and size 10 |
| BaseController.ZeroPagingDefaults | apps/backend/src/controllers/BaseController.ts:130-131 | a page and size of "0" are falsy after parsing and fall back to 1 and 10 |
| BaseService.HandleError | apps/backend/src/services/BaseService.ts:181-203 | a caught error becomes a reply without data whose code is 409 exactly for a unique-constraint error, 400 exactly for a validation error (with a non-empty message), and otherwise 500 with the caller's message |
| BaseService.ColumnOr | apps/backend/src/models/Class.ts:64-71 | the property's value when the body has it, null included; the column default when it is undefined |
| BaseService.ValidationMessage | apps/backend/src/services/BaseService.ts:192-196 | a validation error reports its first item's message, or 数据验证失败 when that is missing or empty |
| BaseService.Offset | apps/backend/src/services/BaseService.ts:126 | for a page of at least 1 and a non-negative size the offset is not negative |
| BaseService.PageData | apps/backend/src/services/BaseService.ts:140-146 | the page object has exactly `data`, `total`, `page`, `size` and `totalPages`, the last being the count divided by the size, rounded up |
| BaseService.PageReply | apps/backend/src/services/BaseService.ts:120-151 | a found page answers 200 with that page object for the offset `(page - 1) * size`; a failed query answers `HandleError` with 查询失败 |
| BaseService.Window | apps/backend/src/services/BaseService.ts:128-133 | the page holds at most `limit` rows, taken in order from `offset` on; past the end it is empty |
| BaseService.PagesCoverCount | apps/backend/src/services/BaseService.ts:135 | `totalPages` pages of `size` rows hold all `count` rows and one page fewer would not; no rows means 0 pages |
| BaseService.PagesAreContiguous | apps/backend/src/services/BaseService.ts:126 | page 1 starts at row 0 and consecutive pages start `size` rows apart |
| BaseService.Unlinked | apps/backend/src/services/CourseService.ts:110-112 | the destroy keeps exactly the links of other owners |
| BaseService.LinksFor | apps/backend/src/services/CourseService.ts:115-119 | one new link per target, in order, each naming the owner |
| BaseService.OwnersOf | apps/backend/src/services/CourseService.ts:86-131 | an owner is listed exactly when it is linked to the target |
| BaseService.TargetsOfAppend | apps/backend/src/services/CourseService.ts:110-121 | the targets of two link lists appended are the targets of each, appended |
| BaseService.TargetsOfUnlinked | apps/backend/src/services/CourseService.ts:110-112 | after the destroy the owner has no targets |
| BaseService.TargetsOfLinksFor | apps/backend/src/services/CourseService.ts:115-121 | the inserted links give the owner exactly the new targets |
| BaseService.ReplacedTargets | apps/backend/src/services/CourseService.ts:109-121 | a replace that completes leaves the owner linked to exactly the new targets and keeps every other owner's links |
| BaseService.FailedInsertEmpties | apps/backend/src/services/CourseService.ts:109-121 | the replace is not atomic: an insert failing after the delete leaves the owner with no links and the others untouched |
| BaseService.PgInteger | apps/backend/src/services/BaseService.ts:39 | the text Postgres accepts against an integer key is white space around an optional sign and decimal digits, and the value lies in 32 bits |
| BaseService.PgIntegerDigits | apps/backend/src/services/BaseService.ts:39 | a digit run is read as its value, and with a leading `-` as its negation, within 32 bits |
| BaseService.PgIntegerText | apps/backend/src/services/BaseService.ts:39 | the decimal text of every 32-bit integer is read back as that integer |
| BaseService.PkOf | apps/backend/src/services/BaseService.ts:39 | a refused key carries an error that is neither a unique-constraint nor a validation error, so `HandleError` answers it with 500 and the caller's message |
| BaseService.KeyOf | apps/backend/src/services/BaseService.ts:39 | a lookup matches a key exactly when the value is that integral number or a text Postgres reads as it |
| BaseService.KeyTextAgrees | apps/backend/src/services/BaseService.ts:39 | a key sent as its decimal text finds the same row as the number |
| BaseService.RefusedKeys | apps/backend/src/services/BaseService.ts:39 | the lookup throws exactly for a boolean, an array, an object, NaN or an infinity, or a text that is not a 32-bit integer |
| BaseService.PatchedLookup | apps/backend/src/services/BaseService.ts:64-67 | after the update each key of the data holds the data's value and every other key keeps the row's |
| BaseService.Inserted | apps/backend/src/services/BaseService.ts:21 | the stored record carries the id the database assigned |
| BaseService.FindReply | apps/backend/src/services/BaseService.ts:37-50 | 404 exactly when no row has the id; otherwise 200 with the row |
| BaseService.AfterUpdate | apps/backend/src/services/BaseService.ts:64-67 | the update keeps the same ids and leaves every other row unchanged |
| BaseService.UpdateReply | apps/backend/src/services/BaseService.ts:69-80 | 404 exactly when no row has the id; otherwise 200 with the updated row |
| BaseService.UpdateResult | apps/backend/src/services/BaseService.ts:62-84 | a database failure is answered by `HandleError` with 更新失败, never with 200 or 404; otherwise `UpdateReply` on the current table |
| BaseService.UpdateThenFind | apps/backend/src/services/BaseService.ts:37-84 | reading an updated row back finds the patched values for the data's keys and the old ones elsewhere |
| BaseService.DeleteThenFind | apps/backend/src/services/BaseService.ts:37-112 | a deleted row is not found afterwards; every other row is found as before |
| BaseService.FailedUpdateReportedAsSuccess | apps/backend/src/services/CourseService.ts:421-437 | as written, a failed update changes nothing and is still reported as a 200 success |
| BaseService.StatusUpdate | apps/backend/src/services/CourseService.ts:421-437 | corrected: 200 exactly when the update ran and the row exists; a failure is passed through as `HandleError`'s answer, and a missing row as 404 |
| BaseService.StatusUpdateWritten | apps/backend/src/services/CourseService.ts:421-437 | a reported success carries the updated row, which holds the new status, and no other row changes |
| BaseService.Table.constructor | apps/backend/src/services/BaseService.ts:10-12 | a new table is empty and valid, with the next id 1 |
| BaseService.Table.Create | apps/backend/src/services/BaseService.ts:19-30 | on a failure nothing is stored and the error is mapped with 创建失败; otherwise the record is stored under a fresh id and returned with 201 |
| BaseService.Table.FindById | apps/backend/src/services/BaseService.ts:37-54 | computes `FindReply`, or the mapped error with 查询失败 |
| BaseService.Table.Update | apps/backend/src/services/BaseService.ts:62-84 | the answer is `UpdateResult` and the rows are patched only when the update succeeds and the row exists |
| BaseService.Table.Delete | apps/backend/src/services/BaseService.ts:91-112 | a failure changes nothing; a missing id answers 404 and changes nothing; otherwise the row is removed and the answer is `true` |
| BaseService.FindAllReply | apps/backend/src/services/BaseService.ts:158-173 | 200 with the matching rows in the query's order, or the mapped error with 查询失败 |
| ServiceFactory.ModelOf | apps/backend/src/services/ServiceFactory.ts:52-58 | a model is returned exactly when a truthy one is registered under the name; otherwise the error names the model |
| ServiceFactory.Resolve | apps/backend/src/services/ServiceFactory.ts:66-125 | all models are fetched exactly when every one is usable, in the order asked; otherwise the first unusable one throws, every earlier one having been usable |
| ServiceFactory.ResolveStops | apps/backend/src/services/ServiceFactory.ts:66-70 | once a prefix of the fetches throws, the whole list throws the same error |
| ServiceFactory.Obtained | apps/backend/src/services/ServiceFactory.ts:64-129 | a cached service is returned as it is; otherwise a service is built exactly when its models resolve, from exactly those models |
| ServiceFactory.CacheAfter | apps/backend/src/services/ServiceFactory.ts:65-72 | a missing model caches nothing; a built service is cached under its key |
| ServiceFactory.BuiltOnce | apps/backend/src/services/ServiceFactory.ts:65-73 | a service is built once: afterwards the cached instance is returned whatever models are registered then, and the cache no longer changes |
| ServiceFactory.UserServiceWiring | apps/backend/src/services/ServiceFactory.ts:64-74 | with every model registered, the user service is built from User, UserRole and Role, in that order |
| ServiceFactory.Then | apps/backend/src/services/ServiceFactory.ts:135-141 | after a throw nothing more runs; otherwise the next getter's cache update is applied |
| ServiceFactory.AllServicesPartial | apps/backend/src/services/ServiceFactory.ts:135-141 | a missing Homework model makes `getAllServices` throw its error after the other three services were built and cached |
| ServiceFactory.Registered | apps/backend/src/services/ServiceFactory.ts:41-45 | the names registered are the old ones plus every entry's name |
| ServiceFactory.RegisteredOthers | apps/backend/src/services/ServiceFactory.ts:41-45 | a name no entry mentions keeps its model, or stays unregistered |
| ServiceFactory.RegisteredLast | apps/backend/src/services/ServiceFactory.ts:41-45 | a name holds the model of the last entry mentioning it |
| ServiceFactory.Factory.constructor | apps/backend/src/services/ServiceFactory.ts:12-15 | both maps start empty |
| ServiceFactory.Factory.RegisterModel | apps/backend/src/services/ServiceFactory.ts:33-35 | sets one model, overwriting, and leaves the services alone |
| ServiceFactory.Factory.RegisterModels | apps/backend/src/services/ServiceFactory.ts:41-45 | the models become `Registered` of the entries; the services are unchanged |
| ServiceFactory.Factory.GetModel | apps/backend/src/services/ServiceFactory.ts:52-58 | returns the model exactly when a truthy one is registered; otherwise throws naming it |
| ServiceFactory.Factory.GetService | apps/backend/src/services/ServiceFactory.ts:64-129 | the answer is `Obtained` and the cache becomes `CacheAfter`; the models are unchanged |
| ServiceFactory.Factory.GetAllServices | apps/backend/src/services/ServiceFactory.ts:135-142 | the four getters run in order: the answer and the cache are `AllServices`'s, a throw leaving earlier services cached |
| ServiceFactory.Factory.ClearServices | apps/backend/src/services/ServiceFactory.ts:147-149 | empties the cache only |
| ServiceFactory.Factory.ClearModels | apps/backend/src/services/ServiceFactory.ts:154-156 | empties the registry only |
| ServiceFactory.Factory.Reset | apps/backend/src/services/ServiceFactory.ts:161-164 | empties both |
| ServiceFactory.Singleton.constructor | apps/backend/src/services/ServiceFactory.ts:11 | no instance exists yet |
| ServiceFactory.Singleton.GetInstance | apps/backend/src/services/ServiceFactory.ts:21-26 | the first call creates an empty factory; every later call returns that same object |
| ServiceFactory.Singleton.GetTwice | apps/backend/src/services/ServiceFactory.ts:21-26 | two calls return the same factory |
| AttendanceService.NewTask | apps/backend/src/services/AttendanceService.ts:69-76 | the stored task has the new id, the input's class, start and end, and the input's status or the column default 1 (active) when the body leaves it undefined |
| AttendanceService.TaskJson | apps/backend/src/services/AttendanceService.ts:78-82 | the returned task carries its id |
| AttendanceService.CreateTaskReply | apps/backend/src/services/AttendanceService.ts:41-86 | a failure of the class lookup gives `HandleError` with 考勤任务创建失败; a missing class gives 404 班级不存在; a start before now gives 400 开始时间不能早于当前时间; an end not after the start gives 400 结束时间必须晚于开始时间; otherwise 201 with the new task, whose status defaults to 1, exactly when nothing failed, in that order |
| AttendanceService.CreatedTimesAreOrdered | apps/backend/src/services/AttendanceService.ts:52-66 | a task created with two valid dates starts no earlier than now and ends after it starts |
| AttendanceService.StatuslessTaskAdmits | apps/backend/src/services/AttendanceService.ts:69-76 | a task created without a status is active: inside its window a member who has not checked in is admitted by check-in's guards |
| AttendanceService.InvalidDatesPassChecks | apps/backend/src/services/AttendanceService.ts:54-61 | an unparseable start date passes both date checks, since comparisons with an invalid date are false |
| AttendanceService.RecordJson | apps/backend/src/services/AttendanceService.ts:181-185 | the returned record carries its id |
| AttendanceService.NewRecord | apps/backend/src/services/AttendanceService.ts:174-179 | the stored record has the new id, the task and the user; the status defaults to 'normal' and the remark is `remark \|\| ''` |
| AttendanceService.CheckInReply | apps/backend/src/services/AttendanceService.ts:96-189 | a failure, or a task id the lookup refuses, gives `HandleError` with 打卡失败; then, in order: missing task 404, inactive 400, not yet started 400, ended 400, already checked in 409, not in the class 403; otherwise 201 with the new record |
| AttendanceService.WindowIsInclusive | apps/backend/src/services/AttendanceService.ts:121-137 | checking in exactly at the start or exactly at the end is accepted |
| AttendanceService.CheckInKeepsOnePerPair | apps/backend/src/services/AttendanceService.ts:139-179 | appending an allowed check-in keeps one record per task and user, and records that check-in |
| AttendanceService.SecondCheckInRefused | apps/backend/src/services/AttendanceService.ts:139-152 | after a successful check-in, the same user's second check-in on the task is refused with 409 |
| AttendanceService.ActiveTaskIds | apps/backend/src/services/AttendanceService.ts:449-471 | a task is listed exactly when it is active, has started, has not ended and belongs to the class when one is given |
| AttendanceService.CheckInWindowIsActive | apps/backend/src/services/AttendanceService.ts:113-456 | for valid dates, check-in's status and window tests accept exactly the tasks listed as active |
| AttendanceService.RecordsOf | apps/backend/src/services/AttendanceService.ts:243-244 | only the task's own records, each one of the stored records |
| AttendanceService.NewestFirst | apps/backend/src/services/AttendanceService.ts:253 | the rows are the records in reverse order of creation |
| AttendanceService.RecordsPageReply | apps/backend/src/services/AttendanceService.ts:226-272 | a failure gives `HandleError` with 获取打卡记录失败; 404 exactly for a missing task; otherwise 200 with the page of the task's records, newest first, and their total |
| AttendanceService.FirstPageIsNewest | apps/backend/src/services/AttendanceService.ts:241-253 | the first page starts with the newest record |
| AttendanceService.ClassTasksReply | apps/backend/src/services/AttendanceService.ts:197-218 | a failure gives `HandleError`; a missing class 404 班级不存在; otherwise the generic page query |
| AttendanceService.CountStatus | apps/backend/src/services/AttendanceService.ts:323-326 | a status count is at most the number of records |
| AttendanceService.CountAppend | apps/backend/src/services/AttendanceService.ts:323-326 | counting over two lists adds up |
| AttendanceService.CountersWithinTotal | apps/backend/src/services/AttendanceService.ts:322-326 | the four counters together never exceed `totalCount` |
| AttendanceService.Rate | apps/backend/src/services/AttendanceService.ts:327-340 | no records give a rate of 0 |
| AttendanceService.Stats | apps/backend/src/services/AttendanceService.ts:332-407 | the statistics object holds the total and the four counters of the records, in the source's order, after the leading entries |
| AttendanceService.ZeroStatsAreEmptyStats | apps/backend/src/services/AttendanceService.ts:296-382 | the literal zeros are exactly the statistics of no records |
| AttendanceService.ClassTaskIds | apps/backend/src/services/AttendanceService.ts:286-290 | an id is listed exactly when it is a task of the class |
| AttendanceService.Selected | apps/backend/src/services/AttendanceService.ts:282-320 | only stored records of the user, and of the given tasks when there are any |
| AttendanceService.NoTasksSelectNothing | apps/backend/src/services/AttendanceService.ts:309 | an empty task list selects no record |
| AttendanceService.StudentStatsReply | apps/backend/src/services/AttendanceService.ts:280-346 | a failure gives `HandleError`; otherwise 200; a class without tasks gives the zero statistics, and otherwise the statistics of the user's records |
| AttendanceService.StudentNameOrderFree | apps/backend/src/services/AttendanceService.ts:334 | the name read from the first selected record is the user's own name whatever order the records come in, or empty when none was found |
| AttendanceService.StudentShortcutAgrees | apps/backend/src/services/AttendanceService.ts:292-307 | the zeros a class without tasks short-circuits to equal what the general query would have counted |
| AttendanceService.ClassStatsReply | apps/backend/src/services/AttendanceService.ts:353-412 | a failure gives `HandleError`; 404 exactly for a missing class; zeros for a class without tasks; otherwise the statistics of the records of its tasks |
| AttendanceService.CheckInCounted | apps/backend/src/services/AttendanceService.ts:386-395 | a check-in on one of the class's tasks adds one to the total and one to its status's counter |
| AttendanceService.SelectedAppend | apps/backend/src/services/AttendanceService.ts:312-320 | a new matching record is selected last |
| AttendanceService.FindRecord | apps/backend/src/services/AttendanceService.ts:422-423 | a found record is stored with that id; none is found only when no record has it |
| AttendanceService.Patch | apps/backend/src/services/AttendanceService.ts:422-425 | the update keeps the record's id, task and user, and sets status and remark exactly when the data names them |
| AttendanceService.UpdatedRecords | apps/backend/src/services/AttendanceService.ts:422-425 | the matching record is patched and every other record kept, in place |
| AttendanceService.UpdateKeepsOnePerPair | apps/backend/src/services/AttendanceService.ts:422-425 | an update keeps one record per task and user |
| AttendanceService.UpdateRecordReply | apps/backend/src/services/AttendanceService.ts:420-442 | a failure gives `HandleError` with 考勤记录更新失败; 404 exactly when no record has the id; otherwise 200 with the patched record |
| AttendanceService.UpdateThenFindRecord | apps/backend/src/services/AttendanceService.ts:420-442 | reading an updated record back finds it patched |
| AttendanceService.AttendanceStore.constructor | apps/backend/src/services/AttendanceService.ts:22-34 | a new store has the given classes and members, no tasks or records, and next ids 1 |
| AttendanceService.AttendanceStore.CreateAttendanceTask | apps/backend/src/services/AttendanceService.ts:41-86 | the reply is `CreateTaskReply`; the task `NewTask` (status defaulting to 1) is stored under the next id exactly when the reply is 201, and nothing else changes |
| AttendanceService.AttendanceStore.CheckIn | apps/backend/src/services/AttendanceService.ts:96-189 | the reply is `CheckInReply`; the record is appended exactly when the reply is 201, keeping one record per task and user |
| AttendanceService.AttendanceStore.UpdateAttendanceRecord | apps/backend/src/services/AttendanceService.ts:420-442 | the reply is `UpdateRecordReply`; the records are patched unless the statement fails, and nothing else changes |
| CourseService.CourseRow | apps/backend/src/services/CourseService.ts:61-68 | the stored row carries the new id, the body's course code under `course_code`, and the body's status or the column default 1 |
| CourseService.CreateCourseReply | apps/backend/src/services/CourseService.ts:46-78 | an undefined course code makes the lookup throw, answered 500 课程创建失败; an existing code gives 409 课程代码已存在; 201 exactly when the code is given and not taken |
| CourseService.CreateKeepsCodesUnique | apps/backend/src/services/CourseService.ts:49-68 | a course created after the check keeps course codes unique |
| CourseService.Resolved | apps/backend/src/services/CourseService.ts:98-100 | the teachers found are exactly the given ids that exist, each once |
| CourseService.ResolvedStep | apps/backend/src/services/CourseService.ts:98-100 | one more id adds one teacher exactly when it exists and is not repeated later |
| CourseService.DistinctCons | apps/backend/src/services/CourseService.ts:102 | a list is repetition-free exactly when its tail is and its head does not recur |
| CourseService.AllInCons | apps/backend/src/services/CourseService.ts:102 | every id names a teacher exactly when the head and every id of the tail do |
| CourseService.ResolvedCount | apps/backend/src/services/CourseService.ts:98-107 | the count check passes exactly when every id names a teacher and no id repeats |
| CourseService.AssignReply | apps/backend/src/services/CourseService.ts:86-132 | a failure before writing gives `HandleError` with 教师分配失败; a missing course 404 课程不存在; a failed count 404 部分教师不存在; 200 exactly when the checks pass and nothing fails |
| CourseService.DuplicateTeacherRefused | apps/backend/src/services/CourseService.ts:98-107 | a repeated teacher id fails the count check even when that teacher exists |
| CourseService.AssignReplacesTeachers | apps/backend/src/services/CourseService.ts:109-128 | on success the course's teachers are exactly the ids given, all distinct existing teachers, and other courses' links are untouched |
| CourseService.FailedInsertDropsTeachers | apps/backend/src/services/CourseService.ts:109-131 | an insert failing after the delete leaves the course with no teachers and reports the failure |
| CourseService.ClassRow | apps/backend/src/services/CourseService.ts:160-168 | the stored class row carries the new id, the body's `maxStudents` or the column default 50, and the body's status or the default 1 |
| CourseService.CreateClassReply | apps/backend/src/services/CourseService.ts:139-178 | a course id the lookup refuses gives `HandleError` with 班级创建失败, then a missing course 404 课程不存在, then a refused teacher id the same error, then a missing teacher 404 教师不存在; 201 with `ClassRow` exactly when both are found |
| CourseService.TeacherCoursesReply | apps/backend/src/services/CourseService.ts:371-413 | a missing teacher gives 404; a teacher without courses gives an empty page with `totalPages` 0; otherwise the page query over the teacher's course ids |
| CourseService.NoOwners | apps/backend/src/services/CourseService.ts:386-392 | a teacher no link mentions has no course ids |
| CourseService.NoLinksIsEmptyPage | apps/backend/src/services/CourseService.ts:392-404 | the empty shortcut answers what a page query over no rows would |
| CourseService.CourseStore.constructor | apps/backend/src/services/CourseService.ts:29-39 | a new store has no courses, classes or links, and the given teachers |
| CourseService.CourseStore.CreateCourse | apps/backend/src/services/CourseService.ts:46-78 | the reply is `CreateCourseReply` (or the mapped error); the course is stored exactly on 201, keeping codes unique, and nothing else changes |
| CourseService.CourseStore.AssignTeachers | apps/backend/src/services/CourseService.ts:86-132 | the reply is `AssignReply` and the links become `AssignedLinks`; courses, teachers and classes are unchanged |
| CourseService.CourseStore.CreateClass | apps/backend/src/services/CourseService.ts:139-178 | the reply is `CreateClassReply` (or the mapped error); the class is stored exactly on 201 |
| CourseService.CourseStore.GetTeacherCourses | apps/backend/src/services/CourseService.ts:371-413 | reads only, answering `TeacherCoursesReply` or the mapped error with 获取教师课程失败 |
| CourseService.CourseStore.UpdateCourseStatus | apps/backend/src/services/CourseService.ts:421-437 | corrected: the reply is `StatusUpdate`, reporting the update's failures, and the rows change as the update does |
| HomeworkService.NewHomework | apps/backend/src/services/HomeworkService.ts:61 | the stored homework has the new id, the input's class and deadline, and status 1 unless given |
| HomeworkService.CreateHomeworkReply | apps/backend/src/services/HomeworkService.ts:41-72 | a query failure gives `HandleError` with 作业发布失败; a missing class 404 班级不存在; a deadline not after now 400 截止时间必须晚于当前时间; 201 exactly when nothing fails and both checks pass |
| HomeworkService.PublishedDeadlineIsLater | apps/backend/src/services/HomeworkService.ts:54-60 | homework published with a valid deadline is due strictly after now |
| HomeworkService.InvalidDeadlinePasses | apps/backend/src/services/HomeworkService.ts:54 | an unparseable deadline passes the check, since comparing with an invalid date is false |
| HomeworkService.NewSubmission | apps/backend/src/services/HomeworkService.ts:147-150 | the stored submission has the new id, the homework, the user and the submit time, with status 'submitted' |
| HomeworkService.SubmissionJson | apps/backend/src/services/HomeworkService.ts:160-164 | the returned submission carries its id |
| HomeworkService.SubmissionsJson | apps/backend/src/services/HomeworkService.ts:228-247 | one JSON row per submission, in order |
| HomeworkService.SubmitReply | apps/backend/src/services/HomeworkService.ts:79-169 | a lookup failure, or a homework id the lookup refuses, gives `HandleError` with 作业提交失败; then, in order: missing homework 404, closed 400, past the deadline 400, not in the class 403, already submitted 409; a failing file insert fails the reply after the submission was stored; otherwise 201 |
| HomeworkService.DeadlineIsInclusive | apps/backend/src/services/HomeworkService.ts:105 | a submission exactly at the deadline is accepted |
| HomeworkService.SubmitKeepsOnePerPair | apps/backend/src/services/HomeworkService.ts:132-150 | storing a not-yet-submitted pair keeps one submission per homework and user, and the pair is then submitted |
| HomeworkService.ResubmissionRefused | apps/backend/src/services/HomeworkService.ts:132-145 | once a submission is stored, the same user's next submission of that homework is refused with 409 |
| HomeworkService.Graded | apps/backend/src/services/HomeworkService.ts:275-283 | grading sets the score and the status 'graded', writes the comment only when given, and changes nothing else |
| HomeworkService.GradeReply | apps/backend/src/services/HomeworkService.ts:260-303 | a score below 0 or above 100 gives 400; a failure, or a submission id the lookup refuses, `HandleError` with 作业批改失败; a missing submission 404; otherwise 200 with the graded row |
| HomeworkService.GradeKeepsOnePerPair | apps/backend/src/services/HomeworkService.ts:275-283 | grading keeps one submission per homework and user |
| HomeworkService.RegradeIsIdempotent | apps/backend/src/services/HomeworkService.ts:275-283 | grading twice with the same score and comment equals grading once |
| HomeworkService.NaNScorePasses | apps/backend/src/services/HomeworkService.ts:266 | a NaN score passes the range check |
| HomeworkService.Newest | apps/backend/src/services/HomeworkService.ts:228-341 | the listing holds only selected stored submissions, and every selected submission up to the highest id, newest first |
| HomeworkService.NewestFrame | apps/backend/src/services/HomeworkService.ts:228-241 | the listing up to an id depends only on the submissions up to that id |
| HomeworkService.SubmissionListedFirst | apps/backend/src/services/HomeworkService.ts:330-341 | a new submission is listed first among its homework's, one more than before |
| HomeworkService.NoHomeworkSelectsNothing | apps/backend/src/services/HomeworkService.ts:226-231 | an empty homework list selects no submission |
| HomeworkService.HomeworkIds | apps/backend/src/services/HomeworkService.ts:211-215 | an id is listed exactly when it is homework of the class |
| HomeworkService.StudentSubmissionsReply | apps/backend/src/services/HomeworkService.ts:205-254 | a failure gives `HandleError`; a class without homework gives an empty list; otherwise 200 with the user's submissions, newest first |
| HomeworkService.StudentShortcutAgrees | apps/backend/src/services/HomeworkService.ts:216-225 | the empty list a class without homework short-circuits to equals what the general query would have listed |
| HomeworkService.SubmissionsPageReply | apps/backend/src/services/HomeworkService.ts:310-362 | a failure gives `HandleError`; 404 exactly for missing homework; otherwise 200 with a page of its submissions, newest first, and their total |
| HomeworkService.ClassHomeworksReply | apps/backend/src/services/HomeworkService.ts:176-200 | a failure gives `HandleError`; a missing class 404 班级不存在; otherwise the generic page query |
| HomeworkService.CountGraded | apps/backend/src/services/HomeworkService.ts:399 | the graded count is at most the number of submissions |
| HomeworkService.CountOverdue | apps/backend/src/services/HomeworkService.ts:400-402 | the overdue count is at most the number of submissions |
| HomeworkService.HomeworkStats | apps/backend/src/services/HomeworkService.ts:407-419 | the statistics hold, in order, the class size, the submitted, graded and overdue counts, the class size minus the submitted count, and the two rates |
| HomeworkService.StatsReply | apps/backend/src/services/HomeworkService.ts:369-425 | a failure gives `HandleError`; 404 exactly for missing homework; otherwise the statistics of its submissions |
| HomeworkService.NotSubmittedUnclamped | apps/backend/src/services/HomeworkService.ts:415 | `notSubmittedCount` is not clamped: one submission to a class with no members gives -1 |
| HomeworkService.CountGradedAppend | apps/backend/src/services/HomeworkService.ts:399 | counting over two lists adds up |
| HomeworkService.SubmissionCounted | apps/backend/src/services/HomeworkService.ts:394-399 | a new submission raises its homework's submitted count by one and leaves the graded count unchanged |
| HomeworkService.HomeworkRows | apps/backend/src/services/HomeworkService.ts:434 | one row per homework, under the same ids |
| HomeworkService.StatusPatch | apps/backend/src/services/HomeworkService.ts:434 | patching a homework row's status gives the row of the homework with that status |
| HomeworkService.StatusUpdated | apps/backend/src/services/HomeworkService.ts:432-448 | the same homework ids; each homework changes at most its status |
| HomeworkService.StatusUpdatedRows | apps/backend/src/services/HomeworkService.ts:434 | the typed status update is the generic row update of `BaseService.update` |
| HomeworkService.HomeworkStore.constructor | apps/backend/src/services/HomeworkService.ts:26-39 | a new store has the given classes and members, and no homework, submissions or files |
| HomeworkService.HomeworkStore.CreateHomework | apps/backend/src/services/HomeworkService.ts:41-72 | the reply is `CreateHomeworkReply`; the homework is stored exactly on 201 |
| HomeworkService.HomeworkStore.SubmitHomework | apps/backend/src/services/HomeworkService.ts:79-169 | the reply is `SubmitReply`; the submission is stored once the checks and its insert succeed, even when the file insert then throws; a file row only for a given file |
| HomeworkService.HomeworkStore.GradeHomework | apps/backend/src/services/HomeworkService.ts:260-303 | the reply is `GradeReply`, and the submission is graded exactly as `GradedRows` states |
| HomeworkService.HomeworkStore.UpdateHomeworkStatus | apps/backend/src/services/HomeworkService.ts:432-448 | corrected: the reply is `StatusUpdate`, reporting the update's failures; the homework changes as the generic update does |
| UserService.StatusOrActive | apps/backend/src/services/UserService.ts:62 | the stored status is never 0: an unset or 0 status becomes Active and any other is kept |
| UserService.Row | apps/backend/src/services/UserService.ts:52-63 | the stored row has the new id, the username and student id, the hash of the password and the defaulted status |
| UserService.Public | apps/backend/src/services/UserService.ts:69-79 | the returned user has exactly id, username, realName, studentId, enrollmentYear, major and status |
| UserService.PublicHidesPassword | apps/backend/src/services/UserService.ts:69-79 | no returned user object has a password member |
| UserService.ByUsername | apps/backend/src/services/UserService.ts:28-30 | nothing is found exactly when no row has the username; a found row has it |
| UserService.ByStudentId | apps/backend/src/services/UserService.ts:40-42 | nothing is found exactly when no row has the student id; a found row has it |
| UserService.ById | apps/backend/src/services/UserService.ts:181 | nothing is found exactly when no row has the id; a found row has it |
| UserService.RegisterReply | apps/backend/src/services/UserService.ts:25-84 | a taken username gives 409 用户名已存在, checked first; then a taken student id 409 学号已存在; 201 exactly when both are free |
| UserService.RegisterKeepsUnique | apps/backend/src/services/UserService.ts:27-63 | a registration that passes both checks keeps usernames and student ids unique |
| UserService.InactiveRegistrationIsActive | apps/backend/src/services/UserService.ts:62 | a registration asking for status 0 is stored as Active |
| UserService.RoleCodes | apps/backend/src/services/UserService.ts:125-135 | the token's roles are exactly the truthy codes of roles linked to the user: every listed code is truthy and comes from one of the user's own links, and every truthy code of a role linked to the user is listed |
| UserService.LoginReply | apps/backend/src/services/UserService.ts:91-170 | an unknown user gives 401 用户名或密码错误; a disabled one 403 账户已被禁用; 200 exactly for an enabled user whose password matches |
| UserService.LoginDoesNotRevealUsernames | apps/backend/src/services/UserService.ts:100-122 | an unknown user and a wrong password get the same answer |
| UserService.DisabledBeforePassword | apps/backend/src/services/UserService.ts:108-116 | a disabled account is refused with 403 whether its password matches or not |
| UserService.AssignReply | apps/backend/src/services/UserService.ts:178-212 | a failure before writing gives `HandleError` with 角色分配失败; a missing user 404; 200 exactly when the user exists and no write fails |
| UserService.AssignReplacesRoles | apps/backend/src/services/UserService.ts:189-202 | after a successful assignment the user's roles are exactly the ids given, and other users' links are untouched |
| UserService.FailedInsertDropsRoles | apps/backend/src/services/UserService.ts:189-210 | a failed insert after the delete leaves the user with no roles and is not reported as success |
| UserService.UserRolesReply | apps/backend/src/services/UserService.ts:219-245 | 404 exactly for a missing user; otherwise the role rows linked to the user |
| UserService.LinkedRoles | apps/backend/src/services/UserService.ts:221-228 | a link to a missing role contributes no row |
| UserService.StudentReply | apps/backend/src/services/UserService.ts:252-283 | 404 exactly when no user has the student id; otherwise 200 with that user's public object |
| UserService.Rows | apps/backend/src/services/UserService.ts:293-303 | one row per input, with consecutive ids |
| UserService.PublicAll | apps/backend/src/services/UserService.ts:308-318 | one public object per created row |
| UserService.PublicAllAt | apps/backend/src/services/UserService.ts:308-318 | the i-th object is the i-th row's public object |
| UserService.BulkReply | apps/backend/src/services/UserService.ts:290-328 | a failure gives `HandleError` with 批量创建用户失败; a repeated unique column refuses the whole batch with 409 数据已存在; 201 exactly when neither happens, with the created users |
| UserService.BulkEntries | apps/backend/src/services/UserService.ts:301-323 | each created user is reported once, in order, with its status defaulted away from 0 |
| UserService.UserStore.constructor | apps/backend/src/services/UserService.ts:14-19 | a new store has no users or links, the given roles and next id 1 |
| UserService.UserStore.Register | apps/backend/src/services/UserService.ts:25-84 | the reply is `RegisterReply` (or the mapped error); a row is appended exactly on 201, keeping the unique columns unique |
| UserService.UserStore.Login | apps/backend/src/services/UserService.ts:91-170 | reads only, answering `LoginReply` or the mapped error with 登录失败 |
| UserService.UserStore.AssignRoles | apps/backend/src/services/UserService.ts:178-212 | the reply is `AssignReply` and the links become `AssignedLinks`; users and roles are unchanged |
| UserService.UserStore.BulkCreate | apps/backend/src/services/UserService.ts:290-328 | the reply is `BulkReply`; the rows are appended exactly on 201, and nothing else changes |
| UserController.Register | apps/backend/src/controllers/UserController.ts:23-46 | a null body is a 500 用户注册失败; any of the six fields falsy gives the 400 naming them; otherwise the service's envelope is handled |
| UserController.RegisterNeedsEveryField | apps/backend/src/controllers/UserController.ts:28-38 | a registration with any of the six fields zero, empty or absent gets a 400 naming it, without reaching the service |
| UserController.Login | apps/backend/src/controllers/UserController.ts:53-69 | a null body is a 500 用户登录失败; a falsy username or password the 400; otherwise the service's envelope is handled |
| UserController.GetCurrentUser | apps/backend/src/controllers/UserController.ts:76-91 | without a truthy `userId` in the state, 401 未登录或登录已过期; otherwise the service is asked for that user |
| UserController.GetUserById | apps/backend/src/controllers/UserController.ts:98-112 | an id that does not parse gives 400 用户ID必须是数字; otherwise the service is asked for the parsed id |
| UserController.LetterIdRefused | apps/backend/src/controllers/UserController.ts:100-104 | an id "abc" is refused before the service is asked |
| UserController.GetUserByStudentId | apps/backend/src/controllers/UserController.ts:119-133 | a falsy student id gives 400 学号不能为空; otherwise the service is asked for it |
| UserController.Indices | apps/backend/src/controllers/UserController.ts:152 | an array or string of length n has n index keys |
| UserController.ObjectKeys | apps/backend/src/controllers/UserController.ts:152 | `Object.keys` throws exactly on undefined or null, and lists an object's keys in the order of its member list |
| UserController.Disallowed | apps/backend/src/controllers/UserController.ts:151-153 | a key is refused exactly when it is not one of the five updatable fields; the order is kept |
| UserController.DisallowedAppend | apps/backend/src/controllers/UserController.ts:153 | filtering a concatenation is concatenating the filtered parts |
| UserController.NothingDisallowed | apps/backend/src/controllers/UserController.ts:153-158 | keys that are all updatable leave nothing to refuse |
| UserController.UpdateUser | apps/backend/src/controllers/UserController.ts:140-166 | a bad id gives 400; a null body a 500 更新用户信息失败; any key outside the five gives 400 naming them; otherwise the service updates the user with the body |
| UserController.AllowedUpdatePasses | apps/backend/src/controllers/UserController.ts:151-160 | an update naming only allowed fields reaches the service with the body unchanged |
| UserController.ParsedNumber | apps/backend/src/controllers/UserController.ts:183-184 | the filter holds the parsed integer, or NaN when nothing parses |
| UserController.UsersWhere | apps/backend/src/controllers/UserController.ts:179-184 | the filter has major and enrollment year when truthy and status whenever present, the numbers through `parseInt` |
| UserController.BuildUsersWhere | apps/backend/src/controllers/UserController.ts:180-184 | the conditional assignments build `UsersWhere` |
| UserController.GetUsers | apps/backend/src/controllers/UserController.ts:173-192 | bad paging answers 500 获取用户列表失败 because the catch overwrites its 400; otherwise the service gets the page, size and filter |
| UserController.EmptyFilters | apps/backend/src/controllers/UserController.ts:183-184 | an empty `status=` is kept as NaN while an empty `enrollmentYear=` is dropped |
| UserController.ScanFrom | apps/backend/src/controllers/UserController.ts:214-230 | the scan accepts exactly when every user from the start has all fields; otherwise it names the first user that is null or misses fields, with those fields |
| UserController.CheckUsers | apps/backend/src/controllers/UserController.ts:214-230 | the loop computes `ScanFrom` from the first user |
| UserController.BulkCreateUsers | apps/backend/src/controllers/UserController.ts:199-238 | a non-array or empty body gives 400; over 100 users 400; otherwise the scan decides between the first incomplete user's 400, a null user's 500 and the service |
| UserController.BulkReachesService | apps/backend/src/controllers/UserController.ts:203-233 | a batch of 1 to 100 complete users reaches the service unchanged |
| UserController.BulkIncompleteRefused | apps/backend/src/controllers/UserController.ts:214-229 | a user with a falsy required field stops the batch before the service: a 400, or a 500 for a null user before it |
| UserController.AssignRoles | apps/backend/src/controllers/UserController.ts:245-271 | a bad id gives 400; a null body 500; a non-array `roleIds` 400 角色ID必须是数组; more than 10 400 用户最多分配10个角色; otherwise the service |
| UserController.EmptyRolesAccepted | apps/backend/src/controllers/UserController.ts:255-265 | an empty role list reaches the service |
| CourseController.CreateCourseNeedsFields | apps/backend/src/controllers/CourseController.ts:29-50 | a course missing one of its five required fields gets a 400 naming the missing fields, without reaching the service |
| CourseController.AssignTeachers | apps/backend/src/controllers/CourseController.ts:57-87 | a bad id gives 400; a null body 500 分配教师失败; `teacherIds` not an array 400, empty 400, over 10 400; otherwise the service gets the list |
| CourseController.GetCourses | apps/backend/src/controllers/CourseController.ts:167-184 | bad paging ends in 500 获取课程列表失败 because the catch overwrites its 400; otherwise the service gets the page, the major and a truthy semester through `parseInt` |
| CourseController.ListOr | apps/backend/src/controllers/CourseController.ts:218-235 | the detail's list when truthy, otherwise the empty array |
| CourseController.DetailList | apps/backend/src/controllers/CourseController.ts:209-238 | a bad id gives 400; a thrown service call propagates; a non-200 detail is answered as it is; otherwise 200 with the list |
| CourseController.DetailForwarded | apps/backend/src/controllers/CourseController.ts:209-238 | a 404 detail is forwarded with its message; a course without teachers lists none |
| CourseController.GetClassDetail | apps/backend/src/controllers/CourseController.ts:243-256 | a bad class id gives 400; a throwing query propagates; a missing class 404 班级不存在; otherwise 200 with the class |
| CourseController.GetClassStudentsAsWritten | apps/backend/src/controllers/CourseController.ts:261-272 | as written: a bad class id gives 400; every numeric id throws, since the include names a user model the course service never sets |
| CourseController.ClassStudentsNeverListed | apps/backend/src/controllers/CourseController.ts:266-271 | no numeric class id gets the 200 as written, though the intended handler answers 200 for it |
| CourseController.GetClassStudents | apps/backend/src/controllers/CourseController.ts:261-272 | corrected, with the user model wired in: a bad class id gives 400; a throwing query propagates; otherwise 200 with the class's users, or [] when there is no class or no users |
| CourseController.GetCoursesBySemester | apps/backend/src/controllers/CourseController.ts:279-299 | a year or semester that does not parse gives 400; a semester outside 1..8 400; otherwise the service gets both numbers |
| CourseController.GetTeacherCourses | apps/backend/src/controllers/CourseController.ts:306-322 | a bad teacher id gives 400; bad paging 500; otherwise the service gets the id and the page |
| CourseController.UpdateCourseStatus | apps/backend/src/controllers/CourseController.ts:329-349 | a bad id gives 400; a null body 500; a status other than exactly 0 or 1 400; otherwise the service gets it |
| AttendanceController.TaskNeedsEndTime | apps/backend/src/controllers/AttendanceController.ts:23-38 | a task without a truthy end time gets the 400 naming the missing fields, `endTime` among them, before the service |
| AttendanceController.CheckIn | apps/backend/src/controllers/AttendanceController.ts:45-71 | a null body 500 打卡失败; a falsy task id 400; then no truthy user 401; otherwise the service gets task, user, status and remark |
| AttendanceController.StudentStatsAsWritten | apps/backend/src/controllers/AttendanceController.ts:124-143 | as written: a bad user id gives 400; any class id, NaN included, is handed to the service |
| AttendanceController.LetterClassIdPasses | apps/backend/src/controllers/AttendanceController.ts:132-136 | a class id "abc" parses to NaN, which the as-written guard lets through and the corrected guard refuses |
| AttendanceController.GetStudentAttendanceStats | apps/backend/src/controllers/AttendanceController.ts:124-143 | corrected: a bad user id 400; a class id present but not a number 400 班级ID必须是数字; otherwise the service gets both |
| AttendanceController.GetActiveAttendanceTasks | apps/backend/src/controllers/AttendanceController.ts:204-217 | corrected: a class id present but not a number 400; otherwise the service gets the optional class id |
| AttendanceController.UpdateData | apps/backend/src/controllers/AttendanceController.ts:188-190 | the update holds `status` exactly when truthy and `remark` exactly when defined, and nothing else |
| AttendanceController.BuildUpdateData | apps/backend/src/controllers/AttendanceController.ts:188-190 | the conditional assignments build `UpdateData` |
| AttendanceController.UpdateAttendanceRecord | apps/backend/src/controllers/AttendanceController.ts:170-197 | a bad id 400; a null body 500; neither a truthy status nor a truthy remark 400 必须提供状态或备注; otherwise the service gets the update |
| AttendanceController.UpdateNeverEmpty | apps/backend/src/controllers/AttendanceController.ts:183-190 | every update that passes the check is non-empty |
| AttendanceController.EmptyRemarkCarried | apps/backend/src/controllers/AttendanceController.ts:183-190 | beside a truthy status an empty remark is still written |
| AttendanceController.PlaceholdersRefuse | apps/backend/src/controllers/AttendanceController.ts:226-245 | `getStudentAttendanceRecords`, `batchUpdateAttendanceRecords` and `exportAttendanceData` always answer 400 with their fixed message and no data |
| HomeworkController.HomeworkNeedsDeadline | apps/backend/src/controllers/HomeworkController.ts:23-38 | a homework without a truthy deadline gets the 400 naming the missing fields, `deadline` among them, before the service |
| HomeworkController.Info | apps/backend/src/controllers/HomeworkController.ts:63-68 | the file information prefers multer's names over formidable's, and takes the size as it is |
| HomeworkController.PickFile | apps/backend/src/controllers/HomeworkController.ts:57-69 | no truthy upload field gives no file; a single file is described; of a list the first element, and an empty list or null first element throws |
| HomeworkController.SubmitHomework | apps/backend/src/controllers/HomeworkController.ts:45-76 | a null body 500; a missing id 400; a throwing upload 500; otherwise the service gets the body and the optional file information |
| HomeworkController.EmptyUploadListFails | apps/backend/src/controllers/HomeworkController.ts:60-74 | an upload field holding an empty list ends in 500 提交作业失败 |
| HomeworkController.FirstUploadTaken | apps/backend/src/controllers/HomeworkController.ts:62 | of two uploaded files only the first is described |
| HomeworkController.UpdateHomework | apps/backend/src/controllers/HomeworkController.ts:232-246 | a bad id 400; otherwise the service gets the body unchanged, even when absent |
| HomeworkController.GetStudentSubmissions | apps/backend/src/controllers/HomeworkController.ts:106-125 | corrected: a bad user id 400; a class id present but not a number 400; otherwise the service gets both |
| HomeworkController.GradeHomework | apps/backend/src/controllers/HomeworkController.ts:132-156 | a null body 500; a falsy submission id or an undefined score 400; a score below 0 or above 100 400; otherwise the service |
| HomeworkController.NullScoreReachesService | apps/backend/src/controllers/HomeworkController.ts:141-151 | a null score, which compares as 0, reaches the service |
| HomeworkController.UpdateHomeworkStatus | apps/backend/src/controllers/HomeworkController.ts:206-226 | a bad id 400; a null body 500; a status other than exactly 0 or 1 400; otherwise the service |
| HomeworkController.Find | apps/backend/src/controllers/HomeworkController.ts:306 | `find` returns the first row of the user, none when no row matches, or throws at a null row before any match |
| HomeworkController.GetStudentHomeworkDetail | apps/backend/src/controllers/HomeworkController.ts:290-315 | bad ids 400; a failing list is handled as it is; otherwise the first submission of the user is 200, none 404, and a throw 500 |
| NestUserController.Login | apps/backend-integrated/src/modules/user/user.controller.ts:49-55 | without an injected user service, 500 UserService not initialized; otherwise the service's envelope |
| NestUserController.GetCurrentUser | apps/backend-integrated/src/modules/user/user.controller.ts:59-66 | without a truthy `userId` on the request's user, 401; otherwise the service is asked for it |
| NestUserController.CurrentUserRefusalAgrees | apps/backend-integrated/src/modules/user/user.controller.ts:59-66 | for every user without a truthy `userId` both backends refuse with 401, and the Koa body's message is the envelope's message |
| NestUserController.GetUserByStudentId | apps/backend-integrated/src/modules/user/user.controller.ts:76-83 | an empty student id 400 学号不能为空; otherwise the service |
| NestUserController.NestUsersWhere | apps/backend-integrated/src/modules/user/user.controller.ts:97-109 | the filter has major when truthy, enrollment year and status whenever defined, through `Number` |
| NestUserController.BuildNestUsersWhere | apps/backend-integrated/src/modules/user/user.controller.ts:100-106 | the conditional assignments build `NestUsersWhere` |
| NestUserController.GetUsers | apps/backend-integrated/src/modules/user/user.controller.ts:97-109 | the service gets the piped page and size with the filter |
| NestUserController.EmptyYearKeptHere | apps/backend-integrated/src/modules/user/user.controller.ts:102-103 | an empty `enrollmentYear=` becomes 0 here and is dropped by the Koa handler |
| NestUserController.BulkCreateUsers | apps/backend-integrated/src/modules/user/user.controller.ts:114-143 | not a non-empty array 400; over 100 400; then the first incomplete user's 400, a null user throws, otherwise the service |
| NestUserController.BulkRefusalsAgree | apps/backend-integrated/src/modules/user/user.controller.ts:114-143 | a batch either backend refuses is refused by both with the same 400 and message |
| NestUserController.AssignRoles | apps/backend-integrated/src/modules/user/user.controller.ts:148-160 | a null body throws; a non-array `roleIds` 400; over 10 400; otherwise the service gets the list |
| NestUserController.RoleListsAgree | apps/backend-integrated/src/modules/user/user.controller.ts:148-160 | both backends hand over exactly the same role lists and refuse the rest with the same message |
| NestCourseController.AssignTeachers | apps/backend-integrated/src/modules/course/course.controller.ts:37-49 | a null body throws; `teacherIds` not a non-empty array 400; over 10 400; otherwise the service gets the list |
| NestCourseController.TeacherListsAgree | apps/backend-integrated/src/modules/course/course.controller.ts:37-49 | both backends hand the service the same teacher lists and refuse the others with 400 |
| NestCourseController.GetCourses | apps/backend-integrated/src/modules/course/course.controller.ts:74-81 | the service gets the page, size, major and a defined semester through `Number` |
| NestCourseController.ListOrEmpty | apps/backend-integrated/src/modules/course/course.controller.ts:91-105 | `?? []`: the detail's list unless it is null or absent |
| NestCourseController.DetailList | apps/backend-integrated/src/modules/course/course.controller.ts:91-105 | a non-200 detail is returned as it is; otherwise 200 with the list |
| NestCourseController.DetailListsAgree | apps/backend-integrated/src/modules/course/course.controller.ts:91-105 | for a list that is an array, null or absent the two backends answer the same list |
| NestCourseController.EmptyStringListDiffers | apps/backend-integrated/src/modules/course/course.controller.ts:91-105 | an empty-string list is kept here and replaced by [] in the Koa backend |
| NestCourseController.GetClassDetail | apps/backend-integrated/src/modules/course/course.controller.ts:109-116 | a failing lookup throws; a missing class 404 班级不存在; otherwise 200 with the class |

## Left out

- Network I/O: the gateway's upstream calls (the legacy backend, the backend's admin endpoints) are inputs, an upstream `(status, text)` pair or a fetched JSON result; `JSON.parse` is a partial function parameter.
- Concurrency: the aggregator's `Promise.all` fan-out is a fixed sequence of four results, and `meta.error` lists failures in label order rather than completion order. Check-then-insert races in the services and races on the rate-limit store are not modelled.
- Floating point: the attendance rate and its rounding, `averageScore` and `submissionRate` are number-valued parameters, not computed.
- AttendanceService.Rate: states only the empty case; the rounded percentage is a parameter.
- Cryptography and tokens: `jwt.verify`, `jwt.sign`, `bcrypt.hash` and `bcrypt.compare` are function parameters.
- Randomness and the clock: `Math.random()` digits and `Date.now()` are parameters; request durations are not part of the log lines.
- Consoles and loggers: log output is returned as values (`BackendLogger`, `BackendError.ErrorHandler`) or left out; the logger packages, the interceptor and the gateway logger are not part of this model.
- ObjectKeys: a JSON object is an ordered member list that is taken to be already in JavaScript property order and free of repeated keys. `JSON.parse` keeps a repeated key once, and `Object.keys` lists integer-like keys first in ascending order, then the rest in insertion order; neither is modelled. So for a body such as `{"b":1,"0":2}` the `updateUser` refusal lists `b, 0`, where the source lists `0, b`.
- ORM and schema: Sequelize models are rows (typed datatypes or JSON objects keyed by id). Column-name mapping, timestamps, `include` joins, `order` clauses and the default scopes are not modelled, nor are migrations, seeders or scripts.
- Dates: a date is a `Time` in milliseconds or `InvalidDate`; date parsing is not modelled.
- ORM validation: a `create` the ORM refuses for a NOT NULL column left null (`allowNull: false`) is covered only through the failure parameter, which may carry a validation error; `CourseRow` and `ClassRow` store such a null as given.
- Primary-key text: `BaseService.PgInteger` reads decimal integer text as Postgres did before version 16; the hexadecimal, octal, binary and underscore-separated forms that version 16 added are not modelled.
- Column coercion outside key lookups: a where clause on a non-key integer column (the duplicate check in `submitHomework`, `user_id` and `homework_id`) compares the JSON values as given, so a text id and the equal number are not matched there.
- GradeReply: an array or an object as `submissionId` makes Sequelize build an `IN` list or an operator clause; both are modelled as a refused key, answered with 作业批改失败.
- Koa's response-side rules (dropping the body for 204 and 304, the `headerSent` guard) are not modelled; a status and body a middleware writes are kept as written.
- An error escaping `ErrorBoundary.Error` (a status Koa refuses) is returned as `escaped`; Koa's application-level default handler that then answers it is outside this model.
- The `qs` query-string library: `stringify` and `parse` are function parameters of `Koa.QueryAssigned` and `Validation.ValidatePagination`.
- JavaScript `Number()` on strings is a function parameter; `String()` of a non-integral number is a stand-in text that is only known to be non-empty (`Js.NumText`).
- Koa's implicit status 200 when a body is assigned without a status is not modelled; handlers set both.
- Upload parsing itself is done by the multipart parser before the middleware; only the parsed file objects are inputs.
- Wiring: route tables, controller initialisation, both applications' bootstrap, Nest modules, pipes (`ParseIdPipe`, `PaginationPipe`: their outputs are the handler's integer inputs) and guards' registration.
- Pass-through handlers are not modelled separately: `getUserRoles` and `getUserStats` in both user controllers, the integrated `register`, `getUserById`, `updateUser`, `createCourse`, `createClass`, `createTimeSlot`, `createSubCourse`, `getCourseDetail`, `getClassStudents`, `getCoursesBySemester`, `getTeacherCourses` and `updateCourseStatus`, and the integrated homework and attendance controllers.
- Koa CourseController `createCourse`, `createClass`, `createTimeSlot`, `createSubCourse` and `getCourseDetail`, AttendanceController `createAttendanceTask`, `getClassAttendanceTasks`, `getAttendanceRecords` and `getClassAttendanceStats`, and HomeworkController `createHomework`, `getClassHomeworks`, `getHomeworkSubmissions`, `getHomeworkStats`, `deleteHomework` and `getHomeworkDetail`: each is the shared required-field, id or paged-id check (`BaseController.Validated`, `BaseController.ById`, `BaseController.PagedById`) with the handler's own messages, so the rows of those shared checks state their behaviour and they have no rows of their own; the required-field lists of `createCourse`, `createAttendanceTask` and `createHomework` are stated by `CourseController.CreateCourseNeedsFields`, `AttendanceController.TaskNeedsEndTime` and `HomeworkController.HomeworkNeedsDeadline`.
- CourseService `createTimeSlot`, `createSubCourse`, `getCoursesByMajor`, `getCourseDetail` and `getCoursesBySemester` are not modelled: they are single ORM queries whose results are passed on.
- UserService `getUserStats` is not modelled: it is a count query and a group-by query whose rows are returned as they are.
- Exceptions: a thrown error is `Threw`/`Propagated`/`Raises` or an `Option` of the thrown JSON value; the error's prototype chain is not modelled beyond its `name`, `status` and `code` members.
- Thin validation wrappers around the schema library (`safeParse` then a 400) are not part of this model; the schema's own constraints are (`DashboardSchema`).
- The front end, documentation and configuration files are not part of this model.

## Findings

| source | as written | input that shows it | evidently intended | confidence | as-written member | corrected member |
|---|---|---|---|---|---|---|
| apps/backend/src/services/CourseService.ts:421-437 | `updateCourseStatus` passes on only a 404 from `update`; any other failure becomes 200 课程状态更新成功 | an existing course whose update statement fails: `update` answers 500 更新失败, nothing changes, and the caller gets 200 with no data | pass the failure envelope on, as for the 404 | not executed | BaseService.FailedUpdateReportedAsSuccess | BaseService.StatusUpdateWritten |
| apps/backend/src/services/HomeworkService.ts:432-448 | `updateHomeworkStatus` passes on only a 404 from `update`; any other failure becomes 200 作业状态更新成功 | an existing homework whose update statement fails | pass the failure envelope on, as for the 404 | not executed | BaseService.FailedUpdateReportedAsSuccess | BaseService.StatusUpdateWritten |
| apps/backend/src/controllers/AttendanceController.ts:132-136 | `classId && isNaN(classId)` is false for NaN, so the 400 never fires | `?classId=abc`: `parseInt` gives NaN, which is falsy, and NaN reaches the service | refuse a class id that is not a number | not executed | AttendanceController.LetterClassIdPasses | AttendanceController.GetStudentAttendanceStats |
| apps/backend/src/controllers/AttendanceController.ts:206-211 | the same guard in `getActiveAttendanceTasks` | `?classId=abc` | refuse a class id that is not a number | not executed | BaseController.ClassIdGuardNeverFires | AttendanceController.GetActiveAttendanceTasks |
| apps/backend/src/controllers/HomeworkController.ts:114-118 | the same guard in `getStudentSubmissions` | `?classId=abc` | refuse a class id that is not a number | not executed | BaseController.ClassIdGuardNeverFires | HomeworkController.GetStudentSubmissions |
| apps/backend/src/controllers/CourseController.ts:266-271 | `getClassStudents` includes `this.courseService.userModel`, which the course service never sets, so `findByPk` throws for every numeric id and no request gets the list | `GET /classes/5/students` with a valid token: the include has an undefined model and the error middleware answers 500 | list the class's users with the user model the other services hold | not executed | CourseController.ClassStudentsNeverListed | CourseController.GetClassStudents |

The corrected members are the ones the rest of the model uses: `CourseService.CourseStore.UpdateCourseStatus` and `HomeworkService.HomeworkStore.UpdateHomeworkStatus` reply through `BaseService.StatusUpdate`, the three handlers use the corrected guard `BaseController.BadClassId`, whose property `BaseController.ClassIdParsed` states, and `CourseController.GetClassStudents` lists the class's users. `BaseService.StatusUpdateAsWritten`, `AttendanceController.StudentStatsAsWritten` and `CourseController.GetClassStudentsAsWritten` model the code as written.
