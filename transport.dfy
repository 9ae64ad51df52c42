/** The two collaborators the pipeline calls out to, as scripted stand-ins that
    record what they were asked: the interceptor chain (OkHttp's `Interceptor.Chain`)
    and the token endpoint of the remittances API. */
module Transport {
  import opened Http

  /** One `Interceptor.Chain`: the request the caller made, and a transport that
      answers each send with the next scripted response and logs every request sent. */
  class Chain {
    const original: Request
    var pending: seq<Response>
    var sent: seq<Request>

    constructor (original: Request, responses: seq<Response>)
      ensures this.original == original && pending == responses && sent == []
    {
      this.original := original;
      pending := responses;
      sent := [];
    }

    /** `chain.proceed(req)`: the request is sent; the answer is the next scripted
        response, or an IOException once the script is exhausted (the network failed). */
    method Proceed(req: Request) returns (r: Result<Response>)
      modifies this
      ensures sent == old(sent) + [req]
      ensures old(pending) == [] ==> r == Failure(IOException) && pending == []
      ensures old(pending) != [] ==> r == Success(old(pending)[0]) && pending == old(pending)[1..]
    {
      sent := sent + [req];
      if pending == [] {
        r := Failure(IOException);
      } else {
        r := Success(pending[0]);
        pending := pending[1..];
      }
    }
  }

  /** The result of `Credentials.basic(user, secret)`, kept symbolic. */
  datatype Credential = Basic(userId: string, secret: string)

  /** The arguments of one `getToken(credentials, subscriptionKey)` call. */
  datatype TokenCall = TokenCall(credentials: Credential, subscriptionKey: string)

  /** The login endpoint: `reply` is Some(token) when the login response is successful
      (the token of its AccessToken body) and None otherwise. */
  class TokenService {
    const reply: Option<string>
    var calls: seq<TokenCall>

    constructor (reply: Option<string>)
      ensures this.reply == reply && calls == []
    {
      this.reply := reply;
      calls := [];
    }

    method GetToken(credentials: Credential, subscriptionKey: string) returns (r: Option<string>)
      modifies this
      ensures r == reply
      ensures calls == old(calls) + [TokenCall(credentials, subscriptionKey)]
    {
      calls := calls + [TokenCall(credentials, subscriptionKey)];
      r := reply;
    }
  }
}
