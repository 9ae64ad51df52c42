/** Concrete calls through `AuthorizationInterceptor.Intercept`, with what a caller can
    conclude from its contract alone. */
module RemittancesScenarios {
  import opened Http
  import opened Sessions
  import opened Transport
  import opened Remittances
  import opened RemittancesProperties

  function SandboxOptions(): RequestOptions {
    RequestOptions("primary-key", "user-id", "api-secret", "sandbox")
  }

  function Transfer(): Request {
    Request("POST", "/remittance/v1_0/transfer/", [Header("X-Reference-Id", "ref-1")], "{\"amount\":\"100\"}")
  }

  /** First call 403, login grants "T2", the retry answers 200 with a body:
      that 200 response is returned, the session holds "T2" and the retry carried
      `Bearer T2` as its Authorization header. */
  method StaleTokenIsRefreshed() returns (result: Result<Response>, token: string, retry: Request)
    ensures result == Success(Response(200, Text("B")))
    ensures token == "T2"
    ensures LastValue(retry.headers, Authorization) == Some("Bearer T2")
  {
    var session := new Session("T1");
    var login := new TokenService(Some("T2"));
    var interceptor := new AuthorizationInterceptor(session, SandboxOptions(), login);
    var chain := new Chain(Transfer(), [Response(403, Text("")), Response(200, Text("B"))]);
    result := interceptor.Intercept(chain);
    token := session.GetToken();
    assert chain.sent[1] == Authorize(Transfer(), "T2", SandboxOptions());
    retry := chain.sent[1];
    BearerIsLastAuthorization(Transfer(), "T2", SandboxOptions());
    assert "Bearer " + "T2" == "Bearer T2";
  }

  /** First call 500 with an error body: the call fails with a `MomoApiException`
      carrying that body, after one send. */
  method ServerErrorRaises() returns (result: Result<Response>, sends: nat)
    ensures result == Failure(MomoApiException("{\"error\":\"insufficient_funds\"}"))
    ensures sends == 1
  {
    var session := new Session("T1");
    var login := new TokenService(None);
    var interceptor := new AuthorizationInterceptor(session, SandboxOptions(), login);
    var chain := new Chain(Transfer(), [Response(500, Text("{\"error\":\"insufficient_funds\"}"))]);
    result := interceptor.Intercept(chain);
    sends := |chain.sent|;
  }

  /** First call 503, resends 503, 503, 200: the 200 of the third resend is returned
      and nothing is sent after it. */
  method TransientErrorRecovers() returns (result: Result<Response>, sends: nat)
    ensures result == Success(Response(200, Text("done")))
    ensures sends == 4
  {
    var session := new Session("T1");
    var login := new TokenService(None);
    var interceptor := new AuthorizationInterceptor(session, SandboxOptions(), login);
    var responses := [Response(503, Text("first")), Response(503, Text("again")),
                      Response(503, Text("again")), Response(200, Text("done")),
                      Response(200, Text("unused"))];
    var chain := new Chain(Transfer(), responses);
    BlindRetryReturnsFirstSuccess(Transfer(), "T1", SandboxOptions(), None, responses, 2);
    result := interceptor.Intercept(chain);
    sends := |chain.sent|;
  }

  /** First call 503 and three more 503s: the first 503 response is returned, not
      any of the resend responses. */
  method TransientErrorPersists() returns (result: Result<Response>, sends: nat)
    ensures result == Success(Response(503, Text("first")))
    ensures sends == 4
  {
    var session := new Session("T1");
    var login := new TokenService(None);
    var interceptor := new AuthorizationInterceptor(session, SandboxOptions(), login);
    var responses := [Response(503, Text("first")), Response(503, Text("second")),
                      Response(503, Text("third")), Response(503, Text("fourth"))];
    var chain := new Chain(Transfer(), responses);
    BlindRetryFallsBackToFirstResponse(Transfer(), "T1", SandboxOptions(), None, responses);
    result := interceptor.Intercept(chain);
    sends := |chain.sent|;
  }
}
