/** The authenticating request pipeline of the remittances client
    (`RemittancesAuthorizationInterceptor`): it attaches the bearer token and the two
    static headers to every call, refreshes the token once on 401/403, turns
    400/404/500 into a `MomoApiException`, and blindly resends anything else up to
    three times. */
module Remittances {
  import opened Http
  import opened Sessions
  import opened Transport

  /** The part of `RequestOptions` the pipeline reads; fixed at construction. */
  datatype RequestOptions = RequestOptions(
    remittancePrimaryKey: string,
    remittanceUserId: string,
    remittanceApiSecret: string,
    targetEnvironment: string)

  const Authorization: string := "Authorization"
  const SubscriptionKey: string := "Ocp-Apim-Subscription-Key"
  const TargetEnvironment: string := "X-Target-Environment"

  /** The number of blind resends made for a status outside the two classified groups. */
  const MaxBlindRetries: nat := 3

  /** 401 and 403: the token is taken to be stale. */
  predicate IsAuthFailure(code: int) {
    code == 401 || code == 403
  }

  /** 400, 500 and 404: the call is rejected and the body becomes the error text. */
  predicate IsFatal(code: int) {
    code == 400 || code == 500 || code == 404
  }

  /** `body().string()` inside its try/catch: the body text, or "" when the read throws
      IllegalStateException. An IOException is not caught and escapes. */
  function ErrorText(resp: Response): Result<string> {
    match resp.body
    case Text(text) => Success(text)
    case Consumed => Success("")
    case Interrupted => Failure(IOException)
  }

  /** What the 400/404/500 branch throws: the classified exception carrying the error
      text, or the IOException that reading the body raised. */
  function Rejection(resp: Response): Thrown {
    match ErrorText(resp)
    case Success(text) => MomoApiException(text)
    case Failure(e) => e
  }

  /** The header wrapper `request(initialRequest)` with `token` as the session's token:
      the original headers followed by exactly three appended ones, method, URL and body
      unchanged. */
  function Authorize(initial: Request, token: string, opts: RequestOptions): (r: Request)
    ensures r.verb == initial.verb && r.url == initial.url && r.body == initial.body
    ensures |r.headers| == |initial.headers| + 3
    ensures r.headers[..|initial.headers|] == initial.headers
    ensures r.headers[|initial.headers|] == Header(Authorization, "Bearer " + token)
    ensures r.headers[|initial.headers| + 1] == Header(SubscriptionKey, opts.remittancePrimaryKey)
    ensures r.headers[|initial.headers| + 2] == Header(TargetEnvironment, opts.targetEnvironment)
  {
    var withBearer := AddHeader(initial, Authorization, "Bearer " + token);
    var withKey := AddHeader(withBearer, SubscriptionKey, opts.remittancePrimaryKey);
    AddHeader(withKey, TargetEnvironment, opts.targetEnvironment)
  }

  /** What the blind-retry loop leads to, and how many resends it makes. */
  datatype Retried = Retried(outcome: Result<Response>, sends: nat)

  /** The blind-retry loop with `budget` resends left, `responses` being what the
      transport will answer: stop at the first successful answer, propagate a transport
      failure, and fall back to `main`, the first response, once the budget is spent. */
  function BlindRetry(main: Response, responses: seq<Response>, budget: nat): (r: Retried)
    ensures r.sends <= budget && r.sends <= |responses| + 1
    ensures budget > 0 ==> 1 <= r.sends
    ensures || r.outcome == Success(main)
            || r.outcome == Failure(IOException)
            || (0 < r.sends <= |responses| && r.outcome == Success(responses[r.sends - 1])
                && IsSuccessful(responses[r.sends - 1].code))
    decreases budget
  {
    if budget == 0 then Retried(Success(main), 0)
    else if responses == [] then Retried(Failure(IOException), 1)
    else if IsSuccessful(responses[0].code) then Retried(Success(responses[0]), 1)
    else
      var rest := BlindRetry(main, responses[1..], budget - 1);
      Retried(rest.outcome, rest.sends + 1)
  }

  /** Everything one `intercept` call does: its outcome, the requests it hands to the
      transport in order, the session token afterwards and the login calls it makes. */
  datatype Trace = Trace(outcome: Result<Response>, sends: seq<Request>, token: string, logins: seq<TokenCall>)

  /** The login call the pipeline makes on 401/403: Basic credentials of the remittance
      user and the subscription key. */
  function LoginCall(opts: RequestOptions): TokenCall {
    TokenCall(Basic(opts.remittanceUserId, opts.remittanceApiSecret), opts.remittancePrimaryKey)
  }

  /** The reference behaviour of `intercept` on the caller's request `original`, with the
      session holding `token`, the login endpoint answering `reply` and the transport
      answering `responses` in turn. */
  function InterceptTrace(original: Request, token: string, opts: RequestOptions,
                          reply: Option<string>, responses: seq<Response>): (t: Trace)
    ensures 1 <= |t.sends| <= 1 + MaxBlindRetries
    ensures t.sends[0] == Authorize(original, token, opts)
    ensures t.token == token || (reply == Some(t.token) && t.logins != [])
    ensures t.logins == [] || t.logins == [LoginCall(opts)]
    ensures t.logins != [] <==> responses != [] && IsAuthFailure(responses[0].code)
    ensures t.outcome.Failure? && t.outcome.error.MomoApiException? ==>
              responses != [] && IsFatal(responses[0].code)
    ensures responses != [] && IsFatal(responses[0].code) && !responses[0].body.Interrupted? ==>
              t.outcome.Failure? && t.outcome.error.MomoApiException?
  {
    var first := Authorize(original, token, opts);
    if responses == [] then
      Trace(Failure(IOException), [first], token, [])
    else
      var main := responses[0];
      if IsAuthFailure(main.code) then
        match reply
        case None =>
          Trace(Success(main), [first], token, [LoginCall(opts)])
        case Some(newToken) =>
          var retry := Authorize(original, newToken, opts);
          var outcome := if |responses| < 2 then Failure(IOException) else Success(responses[1]);
          Trace(outcome, [first, retry], newToken, [LoginCall(opts)])
      else if IsFatal(main.code) then
        Trace(Failure(Rejection(main)), [first], token, [])
      else
        var r := BlindRetry(main, responses[1..], MaxBlindRetries);
        Trace(r.outcome, [first] + seq(r.sends, _ => original), token, [])
  }

  function Min(a: int, b: int): int {
    if a <= b then a else b
  }

  class AuthorizationInterceptor {
    const session: Session
    const opts: RequestOptions
    const tokenService: TokenService

    /** The login client is passed in rather than built from the options. */
    constructor (session: Session, opts: RequestOptions, tokenService: TokenService)
      ensures this.session == session && this.opts == opts && this.tokenService == tokenService
    {
      this.session := session;
      this.opts := opts;
      this.tokenService := tokenService;
    }

    /** `request(initialRequest)`: the request with the session's current token attached.
        Named after the Java method, so the datatype is written `Http.Request` here. */
    method Request(initial: Http.Request) returns (r: Http.Request)
      ensures r == Authorize(initial, session.token, opts)
      ensures LastValue(r.headers, Authorization) == Some("Bearer " + session.token)
    {
      var token := session.GetToken();
      r := Authorize(initial, token, opts);
      BearerIsLastAuthorization(initial, token, opts);
    }

    /** The `while (numRequests < 3)` loop of `intercept`: resend the caller's request
        unmodified, return the first successful answer, and fall back to `mainResponse`. */
    method BlindResend(chain: Chain, mainResponse: Response) returns (result: Result<Response>)
      modifies chain
      ensures var r := BlindRetry(mainResponse, old(chain.pending), MaxBlindRetries);
              && result == r.outcome
              && chain.sent == old(chain.sent) + seq(r.sends, _ => chain.original)
              && chain.pending == old(chain.pending)[Min(r.sends, |old(chain.pending)|)..]
    {
      var numRequests := 0;
      while numRequests < MaxBlindRetries
        invariant 0 <= numRequests <= MaxBlindRetries
        invariant numRequests <= |old(chain.pending)|
        invariant chain.pending == old(chain.pending)[numRequests..]
        invariant chain.sent == old(chain.sent) + seq(numRequests, _ => chain.original)
        invariant var rest := BlindRetry(mainResponse, chain.pending, MaxBlindRetries - numRequests);
                  BlindRetry(mainResponse, old(chain.pending), MaxBlindRetries)
                    == Retried(rest.outcome, rest.sends + numRequests)
      {
        var r := chain.Proceed(chain.original);
        if r.Failure? || IsSuccessful(r.value.code) {
          return r;
        }
        numRequests := numRequests + 1;
      }
      result := Success(mainResponse);
    }

    /** `intercept(chain)`. */
    method Intercept(chain: Chain) returns (result: Result<Response>)
      modifies session, tokenService, chain
      ensures var t := InterceptTrace(chain.original, old(session.token), opts,
                                      tokenService.reply, old(chain.pending));
              && result == t.outcome
              && chain.sent == old(chain.sent) + t.sends
              && session.token == t.token
              && tokenService.calls == old(tokenService.calls) + t.logins
      ensures chain.pending ==
                old(chain.pending)[Min(|chain.sent| - |old(chain.sent)|, |old(chain.pending)|)..]
      ensures 1 <= |chain.sent| - |old(chain.sent)| <= 1 + MaxBlindRetries
      ensures session.token == old(session.token) || tokenService.reply == Some(session.token)
    {
      ghost var responses := chain.pending;
      var authorized := Request(chain.original);
      var first := chain.Proceed(authorized);
      if first.Failure? {
        return first;
      }
      var mainResponse := first.value;
      var mainRequest := chain.original;
      if IsAuthFailure(mainResponse.code) {
        var credentials := Basic(opts.remittanceUserId, opts.remittanceApiSecret);
        var login := tokenService.GetToken(credentials, opts.remittancePrimaryKey);
        if login.Some? {
          session.SaveToken(login.value);
          var token := session.GetToken();
          var retry := Authorize(mainRequest, token, opts);
          result := chain.Proceed(retry);
          return;
        }
        result := Success(mainResponse);
      } else if IsFatal(mainResponse.code) {
        var error := ErrorText(mainResponse);
        if error.Failure? {
          return Failure(error.error);
        }
        result := Failure(MomoApiException(error.value));
      } else {
        result := BlindResend(chain, mainResponse);
      }
    }
  }

  /** In an authorized request, OkHttp's `header("Authorization")` (the last such header)
      is the bearer built from the token, whatever Authorization headers the original
      request already carried; those stay, in order, ahead of it. */
  lemma BearerIsLastAuthorization(initial: Request, token: string, opts: RequestOptions)
    ensures Values(Authorize(initial, token, opts).headers, Authorization)
              == Values(initial.headers, Authorization) + ["Bearer " + token]
    ensures LastValue(Authorize(initial, token, opts).headers, Authorization) == Some("Bearer " + token)
  {
    var withBearer := AddHeader(initial, Authorization, "Bearer " + token);
    var withKey := AddHeader(withBearer, SubscriptionKey, opts.remittancePrimaryKey);
    AddHeaderAppendsValue(initial, Authorization, "Bearer " + token);
    AddHeaderOtherName(withBearer, SubscriptionKey, opts.remittancePrimaryKey, Authorization);
    AddHeaderOtherName(withKey, TargetEnvironment, opts.targetEnvironment, Authorization);
  }
}
