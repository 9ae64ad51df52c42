# Remittances authorization pipeline — a Dafny model

This project models the authenticating request pipeline of the MoMo API Java client:
`RemittancesAuthorizationInterceptor`, the OkHttp interceptor that every remittances
call passes through. For each outbound call it does the following:

- It appends the bearer token held by the session to the request. This follows section 2.1 of RFC 6750.
- It also appends the subscription key and the target environment.
- It sends the request once.
- It sorts the first response by status:
  - **401/403.** It logs in with HTTP Basic credentials (RFC 7617). If the login succeeds, it saves the new token in the session and resends the caller's request once with the new token. That response is returned as it is.
  - **400/404/500.** It raises a `MomoApiException` carrying the body text, or `""` when reading the body throws `IllegalStateException` (the body was already consumed). An `IOException` while reading the body is not caught and escapes instead.
  - **Any other status, 2xx included.** It resends the caller's *unmodified* request up to three times. It returns the first successful (2xx) answer. If none succeeds, it returns the first response.

Files:

- `http.dfy` (module `Http`): headers, requests, responses, OkHttp's `addHeader`, `isSuccessful` and header lookup, and the two throwables (`MomoApiException`, `IOException`).
- `session.dfy` (module `Sessions`): the session, a class with a mutable `token` field.
- `transport.dfy` (module `Transport`): two collaborators that record what they are asked.
  - `Chain` answers each send with the next response of a script and logs every request sent. A send after the script is exhausted fails with an `IOException`.
  - `TokenService` is the login endpoint, an oracle answering with an optional token.
- `interceptor.dfy` (module `Remittances`): the header wrapper `Authorize` and the blind-retry loop `BlindRetry`. It also holds `InterceptTrace`, the reference behaviour of one `intercept` call: its outcome, the requests sent, the final token and the login calls. The class `AuthorizationInterceptor` has the imperative `Intercept`, proved to follow `InterceptTrace`. Its resend loop is the method `BlindResend`, proved to follow `BlindRetry`.
- `properties.dfy` (module `RemittancesProperties`): the promises of each branch, proved about `InterceptTrace`.
- `scenarios.dfy` (module `RemittancesScenarios`): four concrete calls through the class. A caller can conclude each outcome from the contracts alone.

Two behaviours of the code are worth knowing:

- `addHeader` appends rather than replaces. An `Authorization` header the caller set stays ahead of the bearer, and OkHttp's `header("Authorization")` reads the appended bearer (`BearerIsLastAuthorization`).
- A 2xx first response still enters the blind-retry branch. The request is then sent again without its authentication headers (`SuccessfulFirstResponseIsResent`).

## Model

| member | source | states |
|---|---|---|
| `Remittances.Authorize` | src/main/java/ug/sparkpl/momoapi/network/remittances/RemittancesAuthorizationInterceptor.java:89-102 | the wrapped request keeps method, URL and body; its header list is the original list followed by exactly three entries in order: `Authorization: Bearer <token>`, `Ocp-Apim-Subscription-Key`, `X-Target-Environment` |
| `Remittances.BearerIsLastAuthorization` | src/main/java/ug/sparkpl/momoapi/network/remittances/RemittancesAuthorizationInterceptor.java:94-98 | appending keeps every earlier `Authorization` value and adds `Bearer <token>` after them, so the last `Authorization` header is the session's bearer token |
| `Http.AddHeaderAppendsValue` | src/main/java/ug/sparkpl/momoapi/network/remittances/RemittancesAuthorizationInterceptor.java:96-98 | `addHeader` appends a value after the existing ones of that name and never overwrites them |
| `Remittances.AuthorizationInterceptor.Request` | src/main/java/ug/sparkpl/momoapi/network/remittances/RemittancesAuthorizationInterceptor.java:89-102 | `request(initialRequest)` builds the request from the session's current token, which becomes the last `Authorization` value |
| `Remittances.AuthorizationInterceptor.constructor` | src/main/java/ug/sparkpl/momoapi/network/remittances/RemittancesAuthorizationInterceptor.java:41-45 | the interceptor holds the given session, options and login client |
| `Remittances.BlindRetry` | src/main/java/ug/sparkpl/momoapi/network/remittances/RemittancesAuthorizationInterceptor.java:159-172 | the loop makes at most `budget` sends, at least one when the budget is positive, and at most one send more than the transport can answer (the send that fails with an `IOException`). Its outcome is the first response, a transport failure, or a resend response whose status is successful |
| `Remittances.InterceptTrace` | src/main/java/ug/sparkpl/momoapi/network/remittances/RemittancesAuthorizationInterceptor.java:113-176 | one call sends between 1 and 4 requests, the first being the authorized request. The token changes only to the login token after a login. A login happens exactly on a first 401/403, with the user's Basic credentials and the subscription key. A `MomoApiException` is raised only on a first 400/404/500, and always there unless reading the body throws an `IOException` |
| `Remittances.AuthorizationInterceptor.Intercept` | src/main/java/ug/sparkpl/momoapi/network/remittances/RemittancesAuthorizationInterceptor.java:113-176 | the result, the log of sent requests, the session token and the login calls are those `InterceptTrace` gives for the old token and the scripted responses. One scripted response is consumed per answered send; a send that finds the script spent consumes none and fails with an `IOException`. Between 1 and 4 sends happen, and the token changes only to the login's token |
| `Remittances.AuthorizationInterceptor.BlindResend` | src/main/java/ug/sparkpl/momoapi/network/remittances/RemittancesAuthorizationInterceptor.java:159-172 | the `while (numRequests < 3)` loop: its result, its sends and the responses it consumes are those `BlindRetry` gives. Every resend is the caller's request unmodified, and the loop invariant keeps the counter within 0..3 |
| `Sessions.Session.GetToken` | src/main/java/ug/sparkpl/momoapi/network/remittances/RemittancesAuthorizationInterceptor.java:96 | `getToken()` returns the token most recently saved |
| `Sessions.Session.SaveToken` | src/main/java/ug/sparkpl/momoapi/network/remittances/RemittancesAuthorizationInterceptor.java:134 | `saveToken(t)` overwrites the token with `t` |
| `Transport.Chain.Proceed` | src/main/java/ug/sparkpl/momoapi/network/remittances/RemittancesAuthorizationInterceptor.java:114 | `chain.proceed(req)` logs `req` as sent and answers with the next scripted response. Once the script is spent it throws an `IOException` |
| `Transport.TokenService.GetToken` | src/main/java/ug/sparkpl/momoapi/network/remittances/RemittancesAuthorizationInterceptor.java:125-130 | the login call is recorded with its credentials and subscription key. It answers with the token of a successful login response, or none |
| `RemittancesProperties.BlindRetryStopsAtFirstSuccess` | src/main/java/ug/sparkpl/momoapi/network/remittances/RemittancesAuthorizationInterceptor.java:162-169 | the loop returns the first successful resend within the budget, after exactly as many sends as its position plus one |
| `RemittancesProperties.BlindRetryExhausted` | src/main/java/ug/sparkpl/momoapi/network/remittances/RemittancesAuthorizationInterceptor.java:160-175 | when every resend within the budget is unsuccessful, the whole budget is spent and the first response is the outcome |
| `RemittancesProperties.BlindRetryTransportFailure` | src/main/java/ug/sparkpl/momoapi/network/remittances/RemittancesAuthorizationInterceptor.java:164 | a transport failure before any successful resend propagates as an `IOException` from the send that failed |
| `RemittancesProperties.FatalStatusRaises` | src/main/java/ug/sparkpl/momoapi/network/remittances/RemittancesAuthorizationInterceptor.java:144-156 | on a first 400/404/500, a `MomoApiException` is raised and no response is returned. Its message is the body text, or `""` when the read throws `IllegalStateException`. An `IOException` while reading the body escapes in its place. There is one send, no login, and the token is unchanged |
| `RemittancesProperties.RefreshRetriesOnceWithNewToken` | src/main/java/ug/sparkpl/momoapi/network/remittances/RemittancesAuthorizationInterceptor.java:119-143 | on a first 401/403 with a successful login, the session holds the login token. Exactly one more send follows: the caller's request with the three headers appended, bearing `Bearer <newToken>`. Its response is returned unclassified |
| `RemittancesProperties.FailedRefreshReturnsFirstResponse` | src/main/java/ug/sparkpl/momoapi/network/remittances/RemittancesAuthorizationInterceptor.java:130 | on a first 401/403 with a failed login, the first response is returned, no retry is sent and the token is unchanged |
| `RemittancesProperties.BlindResendsAreUnauthenticated` | src/main/java/ug/sparkpl/momoapi/network/remittances/RemittancesAuthorizationInterceptor.java:159-172 | for any other first status, 1 to 3 resends follow. Each is the caller's request exactly as it came, without the authentication headers. Neither the token nor the login is touched |
| `RemittancesProperties.BlindRetryReturnsFirstSuccess` | src/main/java/ug/sparkpl/momoapi/network/remittances/RemittancesAuthorizationInterceptor.java:159-172 | for any other first status, the first successful resend among the three is returned, and nothing is sent after it |
| `RemittancesProperties.BlindRetryFallsBackToFirstResponse` | src/main/java/ug/sparkpl/momoapi/network/remittances/RemittancesAuthorizationInterceptor.java:160-175 | for any other first status with three unsuccessful resends, the first response is returned, not a resend response, after exactly four sends |
| `RemittancesProperties.SuccessfulFirstResponseIsResent` | src/main/java/ug/sparkpl/momoapi/network/remittances/RemittancesAuthorizationInterceptor.java:159-166 | a 2xx first response is still followed by a resend of the unauthenticated request. A 2xx answer to that resend replaces the first response |
| `RemittancesProperties.TokenWrittenOnlyByLogin` | src/main/java/ug/sparkpl/momoapi/network/remittances/RemittancesAuthorizationInterceptor.java:130-134 | the token changes only after a first 401/403 and a successful login, and then only to the login's token |
| `RemittancesScenarios.StaleTokenIsRefreshed` | src/main/java/ug/sparkpl/momoapi/network/remittances/RemittancesAuthorizationInterceptor.java:119-143 | 403, then a login granting `T2`, then 200: the 200 response is returned, the session holds `T2`, and the retry carried `Bearer T2` as its last `Authorization` header |
| `RemittancesScenarios.ServerErrorRaises` | src/main/java/ug/sparkpl/momoapi/network/remittances/RemittancesAuthorizationInterceptor.java:144-156 | 500 with an error body: a `MomoApiException` with that body is raised after one send |
| `RemittancesScenarios.TransientErrorRecovers` | src/main/java/ug/sparkpl/momoapi/network/remittances/RemittancesAuthorizationInterceptor.java:159-172 | 503, then 503, 503, 200: the 200 of the third resend is returned, after four sends |
| `RemittancesScenarios.TransientErrorPersists` | src/main/java/ug/sparkpl/momoapi/network/remittances/RemittancesAuthorizationInterceptor.java:159-175 | 503 and three more 503s: the first 503 response is returned after four sends |

## Left out

- The constructor's Gson, OkHttp, logging-interceptor, timeout and Retrofit wiring (lines 47-78) is configuration. The login client is passed to the constructor instead of being built there.
- `Credentials.basic` and its base64 encoding: the credential is kept symbolic as `Basic(userId, secret)`.
- `Logger` calls: they are diagnostics with no effect on results.
- Transport failures are modelled only as the end of the scripted responses. Timeouts and partial sends are not modelled. What OkHttp's `chain.proceed` does in later interceptors is not modelled either.
- The login call's own `IOException` is not modelled.
- A successful login with a null body ends in a NullPointerException at line 134; this is not modelled.
- A successful login with a null token is not modelled either. Java saves it, and the retry carries `Bearer null`. The model's login answers only with a string token or none.
- Remittances.Authorize: OkHttp's `addHeader` also trims each header value, and the model does not. The model assumes tokens and option values without leading or trailing whitespace. For an empty session token Java sends `Authorization: Bearer`, while the model's value is `"Bearer "`; a login token `"T2 "` is sent as `Bearer T2` by Java and as `Bearer T2 ` by the model.
- OkHttp's `addHeader` rejects a null value (NullPointerException) and a value holding a control or non-ASCII character (IllegalArgumentException). The model assumes every token and option value is valid, non-null header text. So a login token such as `"T\n2"` makes Java throw before the retry is sent, while the model sends the retry.
- A session token that was never set: Java sends `Bearer null`, while the model's session always holds a string.
- Header names are compared exactly; OkHttp's header lookup ignores case.
- Concurrent access to the session token: the model is sequential.
- `RemittancesApiService.java` is an annotation-only Retrofit interface. `MomoApi.java` is a demonstration `main`. Neither has pipeline logic.
