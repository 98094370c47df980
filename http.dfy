/** The parts of an HTTP exchange the two authentication middlewares look at. */
module Http {
  import opened Common

  /** An incoming request: its method, its URL path and its headers. */
  datatype Request = Request(httpMethod: string, path: string, headers: map<string, string>)

  /** A JSON body of the shapes the middlewares write, or a body produced downstream. */
  datatype Body =
    | Message(message: string)                 // {"message": ...}
    | CodedMessage(code: string, message: string)  // {"code": ..., "message": ...}
    | Content(text: string)                    // produced by the route handler

  datatype Response = Response(status: int, body: Body, headers: map<string, string>)

  /** What the middleware attaches to `request.state` before calling the route. */
  datatype Caller = Anonymous | Authenticated(user: map<string, Json>, token: string)

  /** `request.headers.get(name)`. */
  function Header(req: Request, name: string): Option<string> {
    if name in req.headers then Some(req.headers[name]) else None
  }

  /** `response.headers[name] = value`. */
  function WithHeader(resp: Response, name: string, value: string): (r: Response)
    ensures r.status == resp.status && r.body == resp.body
    ensures name in r.headers && r.headers[name] == value
    ensures forall k :: k != name ==> (k in r.headers <==> k in resp.headers)
  {
    resp.(headers := resp.headers[name := value])
  }

  /** The outcome of reading a bearer token from the Authorization header. */
  datatype TokenCheck = MissingHeader | NotBearer | BlankToken | Bearer(token: string)

  /** Both middlewares: no (or an empty) header, a header not starting with
      "Bearer ", a token that is blank once every "Bearer " is removed and the
      rest stripped, or the token. */
  function CheckToken(req: Request): (c: TokenCheck)
    ensures c.Bearer? ==> c.token != [] && c.token == Trim(c.token)
    ensures c.Bearer? <==> (
      && Header(req, "Authorization").Some?
      && IsPrefix("Bearer ", Header(req, "Authorization").value)
      && Trim(RemoveAll(Header(req, "Authorization").value, "Bearer ")) != [])
  {
    match Header(req, "Authorization")
    case None => MissingHeader
    case Some(h) =>
      if h == "" then MissingHeader
      else if !IsPrefix("Bearer ", h) then NotBearer
      else
        var token := Trim(RemoveAll(h, "Bearer "));
        TrimIdempotent(RemoveAll(h, "Bearer "));
        if token == "" then BlankToken else Bearer(token)
  }

  lemma TrimIdempotent(s: string)
    ensures Trim(Trim(s)) == Trim(s)
  {
    var t := Trim(s);
    if t != [] {
      assert TrimStart(t) == t;
      assert TrimEnd(t) == t;
    }
  }

  /** A well-formed header "Bearer <t>" whose token has no further "Bearer "
      inside yields exactly `t` with surrounding blanks stripped. */
  lemma BearerTokenExtracted(req: Request, t: string)
    requires Header(req, "Authorization") == Some("Bearer " + t)
    requires !Contains(t, "Bearer ") && Trim(t) != []
    ensures CheckToken(req) == Bearer(Trim(t))
  {
    var h := "Bearer " + t;
    assert IsPrefix("Bearer ", h);
    assert h[|"Bearer "|..] == t;
    RemoveAbsent(t, "Bearer ");
  }
}
