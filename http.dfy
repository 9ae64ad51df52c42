/** HTTP values the remittances pipeline works on: headers, requests and responses
    as OkHttp presents them, and the two ways a call can fail. */
module Http {

  datatype Option<+T> = None | Some(value: T)

  datatype Header = Header(name: string, value: string)

  /** An outbound call. `body` is carried opaquely: the pipeline never looks into it. */
  datatype Request = Request(verb: string, url: string, headers: seq<Header>, body: string)

  /** What `body().string()` does on a response: yield the text, throw
      IllegalStateException (the body was already consumed), or throw IOException
      (the connection failed while the body was being read). */
  datatype Body =
    | Text(text: string)
    | Consumed
    | Interrupted

  datatype Response = Response(code: int, body: Body)

  /** What escapes from a call instead of a response. */
  datatype Thrown =
    | MomoApiException(message: string)  // the SDK's classified API error
    | IOException                        // a transport failure, never classified

  datatype Result<+T> = Success(value: T) | Failure(error: Thrown)

  /** OkHttp's `Response.isSuccessful()`: a status in [200, 300). */
  predicate IsSuccessful(code: int) {
    200 <= code < 300
  }

  /** OkHttp's `Request.Builder.addHeader`: appends, never replaces an existing header. */
  function AddHeader(r: Request, name: string, value: string): Request {
    r.(headers := r.headers + [Header(name, value)])
  }

  /** Every value of the headers called `name`, in order (OkHttp's `headers(name)`). */
  function Values(hs: seq<Header>, name: string): seq<string> {
    if hs == [] then []
    else
      var last := hs[|hs| - 1];
      Values(hs[..|hs| - 1], name) + (if last.name == name then [last.value] else [])
  }

  /** OkHttp's `header(name)`: the value of the last header called `name`. */
  function LastValue(hs: seq<Header>, name: string): Option<string> {
    var vs := Values(hs, name);
    if vs == [] then None else Some(vs[|vs| - 1])
  }

  /** Header lookup distributes over concatenation: appending headers appends their values. */
  lemma {:induction false} ValuesAppend(a: seq<Header>, b: seq<Header>, name: string)
    ensures Values(a + b, name) == Values(a, name) + Values(b, name)
    decreases |b|
  {
    if b == [] {
      assert a + b == a;
    } else {
      var b' := b[..|b| - 1];
      assert (a + b)[..|a + b| - 1] == a + b';
      assert (a + b)[|a + b| - 1] == b[|b| - 1];
      ValuesAppend(a, b', name);
    }
  }

  /** Appending a header never hides or replaces the headers already present:
      their values stay, in order, in front of the new one. */
  lemma AddHeaderAppendsValue(r: Request, name: string, value: string)
    ensures Values(AddHeader(r, name, value).headers, name) == Values(r.headers, name) + [value]
    ensures LastValue(AddHeader(r, name, value).headers, name) == Some(value)
  {
    ValuesAppend(r.headers, [Header(name, value)], name);
    assert Values([Header(name, value)], name) == [value] by {
      assert [Header(name, value)][..0] == [];
    }
  }

  /** Appending a header with another name leaves the lookup of `name` unchanged. */
  lemma AddHeaderOtherName(r: Request, other: string, value: string, name: string)
    requires other != name
    ensures Values(AddHeader(r, other, value).headers, name) == Values(r.headers, name)
    ensures LastValue(AddHeader(r, other, value).headers, name) == LastValue(r.headers, name)
  {
    ValuesAppend(r.headers, [Header(other, value)], name);
    assert Values([Header(other, value)], name) == [] by {
      assert [Header(other, value)][..0] == [];
    }
  }
}
