/** The remittances session: the one mutable holder of the current bearer token,
    shared by every call made through one client. */
module Sessions {

  class Session {
    var token: string

    /** A session starts with whatever token the client was given (possibly empty). */
    constructor (token: string)
      ensures this.token == token
    {
      this.token := token;
    }

    /** `getToken()`: the value most recently saved. */
    method GetToken() returns (t: string)
      ensures t == token
    {
      t := token;
    }

    /** `saveToken(t)`: overwrites unconditionally, without validating `t`. */
    method SaveToken(t: string)
      modifies this
      ensures token == t
    {
      token := t;
    }
  }
}
