/** The back end's authentication middleware
    (backend/api/backend/api/middleware/auth_middleware.py): a fixed list of
    public paths, and for every other path a bearer token Graph must accept.
    Every refusal is a 401 with the code "UNAUTHORIZED". */
module BackendAuthMiddleware {
  import opened Common
  import opened Http

  /** `public_routes`: compared to the whole path, not as prefixes. */
  const PublicRoutes: seq<string> := ["/api/v1/", "/openapi.json", "/docs", "/redoc", "/health"]

  /** How the `/me` request ended. */
  datatype GraphCall =
    | Answered(status: int, user: map<string, Json>)  // an HTTP answer; the profile is read only on 200
    | Undecodable(reason: string)                     // a 200 whose body is not JSON
    | TimedOut                                        // httpx.TimeoutException
    | Unreachable                                     // httpx.ConnectError
    | Failed(reason: string)                          // any other exception

  // The messages of the 401 responses.
  const MissingHeaderText := "Header Authorization é obrigatório."
  const NotBearerText := "Formato inválido no header Authorization. Utilize: Bearer <token>"
  const BlankTokenText := "Token inválido, valor nulo"
  const RejectedText := "Token inválido. Graph API retornou: "
  const ValidationErrorText := "Erro ao validar token: "
  const TimeoutText := "Timeout ao validar token com Microsoft Graph API"
  const ConnectErrorText := "Não foi possível conectar com Microsoft Graph API"

  function Unauthorized(message: string): Response {
    Response(401, CodedMessage("UNAUTHORIZED", message), map[])
  }

  /** Whether a response is a refusal written by the middleware. */
  predicate IsRefusal(resp: Response) {
    resp.status == 401 && resp.body.CodedMessage? && resp.body.code == "UNAUTHORIZED"
  }

  /** The response `auth_middleware` produces.  A public path runs the route
      anonymously, whatever the header says and whatever Graph would answer.
      On any other path the route runs exactly when the header carries a
      token and Graph answered 200, and then with that token and the profile
      Graph returned; every other outcome is a refusal. */
  function Handle(req: Request, call: GraphCall, next: (Request, Caller) -> Response): (r: Response)
    ensures req.path in PublicRoutes ==> r == next(req, Anonymous)
    ensures req.path !in PublicRoutes ==>
      if CheckToken(req).Bearer? && call.Answered? && call.status == 200 then
        r == next(req, Authenticated(call.user, CheckToken(req).token))
      else
        IsRefusal(r)
  {
    if req.path in PublicRoutes then next(req, Anonymous)
    else Protected(req, CheckToken(req), call, next)
  }

  /** The header checks, then the Graph call: only a Graph 200 for a Bearer
      token reaches the route; a refusal after any other Graph answer quotes
      Graph's status. */
  function Protected(req: Request, check: TokenCheck, call: GraphCall,
                     next: (Request, Caller) -> Response): (r: Response)
    ensures if check.Bearer? && call.Answered? && call.status == 200 then
        r == next(req, Authenticated(call.user, check.token))
      else
        IsRefusal(r)
    ensures check.Bearer? && call.Answered? && call.status != 200 ==>
      r.body.message == RejectedText + StatusText(call.status)
  {
    match check
    case MissingHeader => Unauthorized(MissingHeaderText)
    case NotBearer => Unauthorized(NotBearerText)
    case BlankToken => Unauthorized(BlankTokenText)
    case Bearer(token) =>
      match call
      case Answered(status, user) =>
        if status == 200 then next(req, Authenticated(user, token))
        else Unauthorized(RejectedText + StatusText(status))
      case Undecodable(reason) => Unauthorized(ValidationErrorText + reason)
      case TimedOut => Unauthorized(TimeoutText)
      case Unreachable => Unauthorized(ConnectErrorText)
      case Failed(reason) => Unauthorized(ValidationErrorText + reason)
  }

  /** The decimal text of an HTTP status code. */
  function StatusText(status: int): string {
    if status < 0 then "-" + NatToDecimal(-status) else NatToDecimal(status)
  }

  /** No public path extends another one. */
  lemma PublicRoutesPrefixFree(p: string, q: string)
    requires p in PublicRoutes && q in PublicRoutes && IsPrefix(p, q)
    ensures p == q
  {
    // The public paths already differ in their second character.
    assert q[..|p|] == p && q[1] == q[..|p|][1];
  }

  /** `public_routes` is compared to the whole path, not used as prefixes: a
      path strictly below a public path (such as "/docs/oauth2-redirect" or
      "/api/v1/me") goes through the header checks and Graph. */
  lemma BelowPublicPathIsProtected(req: Request, call: GraphCall, next: (Request, Caller) -> Response, p: string)
    requires p in PublicRoutes && IsPrefix(p, req.path) && req.path != p
    ensures req.path !in PublicRoutes
    ensures Handle(req, call, next) == Protected(req, CheckToken(req), call, next)
  {
    if req.path in PublicRoutes {
      PublicRoutesPrefixFree(p, req.path);
    }
  }

  /** `auth_middleware`: the public-path test, the header checks in order,
      then the Graph call. */
  method AuthMiddleware(req: Request, call: GraphCall, next: (Request, Caller) -> Response)
    returns (resp: Response)
    ensures resp == Handle(req, call, next)
    ensures req.path !in PublicRoutes && !IsRefusal(resp) ==>
      && CheckToken(req).Bearer? && call.Answered? && call.status == 200
      && resp == next(req, Authenticated(call.user, CheckToken(req).token))
  {
    if req.path in PublicRoutes {
      return next(req, Anonymous);
    }
    var check := CheckToken(req);
    match check {
      case MissingHeader => resp := Unauthorized(MissingHeaderText);
      case NotBearer => resp := Unauthorized(NotBearerText);
      case BlankToken => resp := Unauthorized(BlankTokenText);
      case Bearer(token) =>
        match call {
          case Answered(status, user) =>
            if status == 200 {
              resp := next(req, Authenticated(user, token));
            } else {
              resp := Unauthorized(RejectedText + StatusText(status));
            }
          case Undecodable(reason) => resp := Unauthorized(ValidationErrorText + reason);
          case TimedOut => resp := Unauthorized(TimeoutText);
          case Unreachable => resp := Unauthorized(ConnectErrorText);
          case Failed(reason) => resp := Unauthorized(ValidationErrorText + reason);
        }
    }
  }
}
