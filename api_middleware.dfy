/** The API's authentication middleware (api/middleware/middleware.py):
    answers CORS preflights, lets public paths through, and otherwise
    validates the bearer token against Graph (with the token cache in
    front) before calling the route.  Every response it produces allows any
    origin. */
module ApiMiddleware {
  import opened Common
  import TokenCache
  import User
  import opened Http

  const AllowOrigin := "Access-Control-Allow-Origin"

  /** `validate_microsoft_token`: the full profile, from the cache when fresh. */
  method ValidateMicrosoftToken(cache: TokenCache.Cache, token: string, now: real,
                                reply: Reply<User.UserData>, storedAt: real) returns (r: Result<User.UserData>)
    modifies cache
    ensures (r, cache.entries) == User.FetchUser(old(cache.entries), token, now, reply, storedAt)
  {
    if token in cache.entries {
      var cached := cache.entries[token];
      if now - cached.timestamp < TokenCache.CACHE_TIMEOUT {
        r := if cached.UserEntry? then Ok(cached.userData) else Err(Exception("'user_data'"));
        return;
      }
    }
    match reply {
      case Success(user) =>
        cache.entries := cache.entries[token := TokenCache.UserEntry(user, storedAt)];
        r := Ok(user);
      case _ =>
        r := Err(User.FetchFailure(reply));
    }
  }

  /** The preflight answer: 200 with the four CORS headers. */
  function Preflight(): Response {
    Response(200, Message("OK"), map[
      AllowOrigin := "*",
      "Access-Control-Allow-Methods" := "GET, POST, PUT, DELETE, OPTIONS",
      "Access-Control-Allow-Headers" := "Authorization, Content-Type",
      "Access-Control-Allow-Credentials" := "true"])
  }

  /** A JSON error response `{"message": text}`. */
  function Refuse(status: int, text: string): Response {
    Response(status, Message(text), map[AllowOrigin := "*"])
  }

  predicate IsPublic(path: string) {
    IsPrefix("/api/v1/public", path)
  }

  /** The response `auth_middleware` produces and the cache it leaves.  A
      preflight is answered at once and a public path runs the route
      anonymously, neither touching the cache; every response, whichever
      branch produced it, allows any origin; and the cache changes only
      through the validation of the token of a protected request. */
  function Handle(req: Request, entries: map<string, TokenCache.Entry>, now: real,
                  reply: Reply<User.UserData>, storedAt: real,
                  next: (Request, Caller) -> Response): (r: (Response, map<string, TokenCache.Entry>))
    ensures req.httpMethod == "OPTIONS" ==> r == (Preflight(), entries)
    ensures req.httpMethod != "OPTIONS" && IsPublic(req.path) ==>
      var routed := next(req, Anonymous);
      && r.0.status == routed.status && r.0.body == routed.body
      && r.0.headers == routed.headers[AllowOrigin := "*"]
      && r.1 == entries
    ensures AllowOrigin in r.0.headers && r.0.headers[AllowOrigin] == "*"
    ensures r.1 == entries || (
      && req.httpMethod != "OPTIONS" && !IsPublic(req.path) && CheckToken(req).Bearer?
      && r.1 == User.FetchUser(entries, CheckToken(req).token, now, reply, storedAt).1)
  {
    if req.httpMethod == "OPTIONS" then (Preflight(), entries)
    else if IsPublic(req.path) then (WithHeader(next(req, Anonymous), AllowOrigin, "*"), entries)
    else Protected(req, CheckToken(req), entries, now, reply, storedAt, next)
  }

  /** A protected path, once the Authorization header has been read: every
      response allows any origin, and the cache changes only through the
      validation of a Bearer token. */
  function Protected(req: Request, check: TokenCheck, entries: map<string, TokenCache.Entry>, now: real,
                     reply: Reply<User.UserData>, storedAt: real,
                     next: (Request, Caller) -> Response): (r: (Response, map<string, TokenCache.Entry>))
    ensures AllowOrigin in r.0.headers && r.0.headers[AllowOrigin] == "*"
    ensures r.1 == entries || (check.Bearer? && r.1 == User.FetchUser(entries, check.token, now, reply, storedAt).1)
    ensures !check.Bearer? ==> r.0.status == 401 && r.1 == entries
  {
    match check
      case MissingHeader => (Refuse(401, "Header Authorization é obrigatório"), entries)
      case NotBearer => (Refuse(401, "Formato inválido. Use: Bearer <token>"), entries)
      case BlankToken => (Refuse(401, "Token não fornecido"), entries)
      case Bearer(token) =>
        var (v, after) := User.FetchUser(entries, token, now, reply, storedAt);
        match v
        case Ok(user) =>
          var resp := next(req, Authenticated(user, token));
          (WithHeader(WithHeader(resp, AllowOrigin, "*"), "Access-Control-Allow-Credentials", "true"), after)
        case Err(HttpException(status, detail)) => (Refuse(status, detail), after)
        case Err(Exception(text)) => (Refuse(500, "Erro interno: " + text), after)
  }

  /** On a protected path the route runs only for a validated token, and
      then with that token's profile; every other outcome is an error the
      middleware writes itself: 401 for a missing or malformed header, the
      validation's status otherwise. */
  lemma ProtectedRouteNeedsValidToken(req: Request, entries: map<string, TokenCache.Entry>, now: real,
                                      reply: Reply<User.UserData>, storedAt: real,
                                      next: (Request, Caller) -> Response)
    requires req.httpMethod != "OPTIONS" && !IsPublic(req.path)
    ensures var resp := Handle(req, entries, now, reply, storedAt, next).0;
      match CheckToken(req)
      case Bearer(token) =>
        var v := User.FetchUser(entries, token, now, reply, storedAt).0;
        && (v.Ok? ==> resp.body == next(req, Authenticated(v.value, token)).body
                      && resp.status == next(req, Authenticated(v.value, token)).status)
        && (v.Err? ==> resp.body.Message? && resp.status == (if v.error.HttpException? then v.error.status else 500))
      case _ => resp.status == 401 && resp.body.Message?
  {
  }

  /** `auth_middleware` */
  method AuthMiddleware(cache: TokenCache.Cache, req: Request, now: real,
                        reply: Reply<User.UserData>, storedAt: real,
                        next: (Request, Caller) -> Response) returns (resp: Response)
    modifies cache
    ensures (resp, cache.entries) == Handle(req, old(cache.entries), now, reply, storedAt, next)
  {
    if req.httpMethod == "OPTIONS" {
      return Preflight();
    }
    if IsPublic(req.path) {
      resp := next(req, Anonymous);
      return WithHeader(resp, AllowOrigin, "*");
    }
    resp := Authenticate(cache, req, CheckToken(req), now, reply, storedAt, next);
  }

  /** The protected-path part of `auth_middleware`. */
  method Authenticate(cache: TokenCache.Cache, req: Request, check: TokenCheck, now: real,
                      reply: Reply<User.UserData>, storedAt: real,
                      next: (Request, Caller) -> Response) returns (resp: Response)
    modifies cache
    ensures (resp, cache.entries) == Protected(req, check, old(cache.entries), now, reply, storedAt, next)
  {
    match check {
      case MissingHeader => return Refuse(401, "Header Authorization é obrigatório");
      case NotBearer => return Refuse(401, "Formato inválido. Use: Bearer <token>");
      case BlankToken => return Refuse(401, "Token não fornecido");
      case Bearer(token) =>
        var v := ValidateMicrosoftToken(cache, token, now, reply, storedAt);
        match v {
          case Ok(user) =>
            resp := next(req, Authenticated(user, token));
            resp := WithHeader(resp, AllowOrigin, "*");
            resp := WithHeader(resp, "Access-Control-Allow-Credentials", "true");
          case Err(HttpException(status, detail)) => resp := Refuse(status, detail);
          case Err(Exception(text)) => resp := Refuse(500, "Erro interno: " + text);
        }
    }
  }
}
