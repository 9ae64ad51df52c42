/** What the remittances pipeline promises, branch by branch, proved about its reference
    behaviour `InterceptTrace` (which `AuthorizationInterceptor.Intercept` is proved to follow). */
module RemittancesProperties {
  import opened Http
  import opened Remittances

  // ---------------------------------------------------------------------------------
  // The blind-retry loop
  // ---------------------------------------------------------------------------------

  /** The loop returns the first successful resend and makes no send after it. */
  lemma {:induction false} BlindRetryStopsAtFirstSuccess(main: Response, rs: seq<Response>, budget: nat, i: nat)
    requires i < budget && i < |rs| && IsSuccessful(rs[i].code)
    requires forall j :: 0 <= j < i ==> !IsSuccessful(rs[j].code)
    ensures BlindRetry(main, rs, budget) == Retried(Success(rs[i]), i + 1)
    decreases i
  {
    if i > 0 {
      assert !IsSuccessful(rs[0].code);
      BlindRetryStopsAtFirstSuccess(main, rs[1..], budget - 1, i - 1);
    }
  }

  /** When every resend within the budget fails, the loop spends the whole budget and
      the first response, not any resend response, is the outcome. */
  lemma {:induction false} BlindRetryExhausted(main: Response, rs: seq<Response>, budget: nat)
    requires budget <= |rs|
    requires forall j :: 0 <= j < budget ==> !IsSuccessful(rs[j].code)
    ensures BlindRetry(main, rs, budget) == Retried(Success(main), budget)
    decreases budget
  {
    if budget > 0 {
      assert !IsSuccessful(rs[0].code);
      BlindRetryExhausted(main, rs[1..], budget - 1);
    }
  }

  /** When the transport fails before any resend succeeds, its IOException propagates
      from the send that failed. */
  lemma {:induction false} BlindRetryTransportFailure(main: Response, rs: seq<Response>, budget: nat)
    requires |rs| < budget
    requires forall j :: 0 <= j < |rs| ==> !IsSuccessful(rs[j].code)
    ensures BlindRetry(main, rs, budget) == Retried(Failure(IOException), |rs| + 1)
    decreases |rs|
  {
    if rs != [] {
      assert !IsSuccessful(rs[0].code);
      BlindRetryTransportFailure(main, rs[1..], budget - 1);
    }
  }

  // ---------------------------------------------------------------------------------
  // intercept, branch by branch
  // ---------------------------------------------------------------------------------

  /** 400, 404 and 500: no response is returned. A `MomoApiException` carrying the body
      text is raised, with "" when the read throws IllegalStateException; an IOException
      while reading the body escapes instead. Nothing more is sent and the session keeps
      its token. */
  lemma FatalStatusRaises(original: Request, token: string, opts: RequestOptions,
                          reply: Option<string>, responses: seq<Response>)
    requires responses != [] && IsFatal(responses[0].code)
    ensures var t := InterceptTrace(original, token, opts, reply, responses);
            && t.outcome.Failure?
            && (responses[0].body.Text? ==> t.outcome.error == MomoApiException(responses[0].body.text))
            && (responses[0].body.Consumed? ==> t.outcome.error == MomoApiException(""))
            && (responses[0].body.Interrupted? ==> t.outcome.error == IOException)
            && t.sends == [Authorize(original, token, opts)]
            && t.token == token && t.logins == []
  {
  }

  /** 401 or 403 and a successful login: the session is left holding the login token,
      and exactly one more send happens, of the caller's request with the three headers
      appended, bearing the new token; its response is returned whatever its status. */
  lemma RefreshRetriesOnceWithNewToken(original: Request, token: string, opts: RequestOptions,
                                       newToken: string, responses: seq<Response>)
    requires responses != [] && IsAuthFailure(responses[0].code)
    ensures var t := InterceptTrace(original, token, opts, Some(newToken), responses);
            && t.token == newToken
            && t.logins == [LoginCall(opts)]
            && |t.sends| == 2
            && t.sends[1] == Authorize(original, newToken, opts)
            && LastValue(t.sends[1].headers, Authorization) == Some("Bearer " + newToken)
            && (|responses| >= 2 ==> t.outcome == Success(responses[1]))
            && (|responses| < 2 ==> t.outcome == Failure(IOException))
  {
    BearerIsLastAuthorization(original, newToken, opts);
  }

  /** 401 or 403 and a failed login: the first response is returned as it is, no retry
      is sent and the session keeps its token. */
  lemma FailedRefreshReturnsFirstResponse(original: Request, token: string, opts: RequestOptions,
                                          responses: seq<Response>)
    requires responses != [] && IsAuthFailure(responses[0].code)
    ensures var t := InterceptTrace(original, token, opts, None, responses);
            && t.outcome == Success(responses[0])
            && t.sends == [Authorize(original, token, opts)]
            && t.token == token
            && t.logins == [LoginCall(opts)]
  {
  }

  /** Any other first status: the resends are the caller's request exactly as it came,
      without the authentication headers, and neither the session nor the login is touched. */
  lemma BlindResendsAreUnauthenticated(original: Request, token: string, opts: RequestOptions,
                                       reply: Option<string>, responses: seq<Response>)
    requires responses != [] && !IsAuthFailure(responses[0].code) && !IsFatal(responses[0].code)
    ensures var t := InterceptTrace(original, token, opts, reply, responses);
            && 1 <= |t.sends| - 1 <= MaxBlindRetries
            && (forall k :: 1 <= k < |t.sends| ==> t.sends[k] == original)
            && t.token == token && t.logins == []
  {
  }

  /** Any other first status: the first successful resend (at most the third) is
      returned, and no send follows it. */
  lemma BlindRetryReturnsFirstSuccess(original: Request, token: string, opts: RequestOptions,
                                      reply: Option<string>, responses: seq<Response>, i: nat)
    requires responses != [] && !IsAuthFailure(responses[0].code) && !IsFatal(responses[0].code)
    requires i < MaxBlindRetries && 1 + i < |responses| && IsSuccessful(responses[1 + i].code)
    requires forall j :: 1 <= j < 1 + i ==> !IsSuccessful(responses[j].code)
    ensures var t := InterceptTrace(original, token, opts, reply, responses);
            && t.outcome == Success(responses[1 + i])
            && t.sends == [Authorize(original, token, opts)] + seq(i + 1, _ => original)
  {
    var rs := responses[1..];
    forall j | 0 <= j < i ensures !IsSuccessful(rs[j].code) {
      assert rs[j] == responses[1 + j];
    }
    BlindRetryStopsAtFirstSuccess(responses[0], rs, MaxBlindRetries, i);
  }

  /** Any other first status and three failed resends: the first response is returned,
      not any resend response, after exactly four sends. */
  lemma BlindRetryFallsBackToFirstResponse(original: Request, token: string, opts: RequestOptions,
                                           reply: Option<string>, responses: seq<Response>)
    requires responses != [] && !IsAuthFailure(responses[0].code) && !IsFatal(responses[0].code)
    requires |responses| > MaxBlindRetries
    requires forall j :: 1 <= j <= MaxBlindRetries ==> !IsSuccessful(responses[j].code)
    ensures var t := InterceptTrace(original, token, opts, reply, responses);
            && t.outcome == Success(responses[0])
            && |t.sends| == 1 + MaxBlindRetries
  {
    var rs := responses[1..];
    forall j | 0 <= j < MaxBlindRetries ensures !IsSuccessful(rs[j].code) {
      assert rs[j] == responses[1 + j];
    }
    BlindRetryExhausted(responses[0], rs, MaxBlindRetries);
  }

  /** A first response that is itself successful (2xx) is not returned straight away:
      it falls into the blind-retry branch, so the caller's request is sent again,
      without its authentication headers. A 2xx answer to that resend is returned in
      place of the first response. */
  lemma SuccessfulFirstResponseIsResent(original: Request, token: string, opts: RequestOptions,
                                        reply: Option<string>, responses: seq<Response>)
    requires responses != [] && IsSuccessful(responses[0].code)
    ensures var t := InterceptTrace(original, token, opts, reply, responses);
            && |t.sends| >= 2 && t.sends[1] == original
            && (|responses| >= 2 && IsSuccessful(responses[1].code) ==>
                  t.outcome == Success(responses[1]) && |t.sends| == 2)
  {
    if |responses| >= 2 && IsSuccessful(responses[1].code) {
      BlindRetryReturnsFirstSuccess(original, token, opts, reply, responses, 0);
    }
  }

  /** The session token changes only on the successful-login path, and then to the
      login's token. */
  lemma TokenWrittenOnlyByLogin(original: Request, token: string, opts: RequestOptions,
                                reply: Option<string>, responses: seq<Response>)
    ensures var t := InterceptTrace(original, token, opts, reply, responses);
            t.token != token ==>
              responses != [] && IsAuthFailure(responses[0].code) && reply == Some(t.token)
  {
  }
}
