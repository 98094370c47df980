/** The user service (api/modules/user.py): validates a token against the
    Graph `/me` endpoint, with the token cache in front, and returns three
    fields of the profile. */
module User {
  import opened Common
  import TokenCache

  /** The JSON object Graph returns for `/me`. */
  type UserData = map<string, Json>

  /** `_filter_user_data`: the profile reduced to `email` (Graph's `mail`),
      `displayName` and `id`, each None when Graph left it out. */
  function FilterUserData(user: UserData): (r: map<string, Json>)
    ensures r.Keys == {"email", "displayName", "id"}
    ensures r["email"] == Get(user, "mail")
    ensures r["displayName"] == Get(user, "displayName")
    ensures r["id"] == Get(user, "id")
  {
    map["email" := Get(user, "mail"), "displayName" := Get(user, "displayName"), "id" := Get(user, "id")]
  }

  /** The filtered form depends on nothing but the three source fields. */
  lemma FilterSeesOnlyThreeFields(a: UserData, b: UserData)
    requires forall k :: k in {"mail", "displayName", "id"} ==> Get(a, k) == Get(b, k)
    ensures FilterUserData(a) == FilterUserData(b)
  {
    assert Get(a, "mail") == Get(b, "mail");
    assert Get(a, "displayName") == Get(b, "displayName");
    assert Get(a, "id") == Get(b, "id");
  }

  /** The HTTPException a failed `/me` request turns into (the same in
      `get_user_from_token` and in the middleware's `validate_microsoft_token`):
      401 and 403 with fixed texts, any other status passed through, and 500
      for a connection or decoding failure. */
  function FetchFailure(reply: Reply<UserData>): (f: Failure)
    requires !reply.Success?
    ensures f.HttpException?
    ensures reply.StatusError? ==> f.status == reply.status
    ensures !reply.StatusError? ==> f.status == 500
  {
    match reply
    case StatusError(s, reason) =>
      if s == 401 then HttpException(401, "Token inválido ou expirado")
      else if s == 403 then HttpException(403, "Permissões insuficientes")
      else HttpException(s, "Erro na validação do token: " + reason)
    case ConnectionError(reason) => HttpException(500, "Erro de conexão: " + reason)
    case InvalidJson => HttpException(500, "Erro ao processar resposta da API")
  }

  /** The full profile for a token and the cache left behind: a fresh entry
      under the token is used as is, otherwise Graph is asked and a success
      is stored with the time of storing. */
  function FetchUser(entries: map<string, TokenCache.Entry>, token: string, now: real,
                     reply: Reply<UserData>, storedAt: real): (r: (Result<UserData>, map<string, TokenCache.Entry>))
    // a fresh entry answers without Graph
    ensures token in entries && TokenCache.IsFresh(entries[token], now) ==> r.1 == entries
    // a profile returned is the profile cached under the token
    ensures r.0.Ok? ==> token in r.1 && r.1[token].UserEntry? && r.1[token].userData == r.0.value
    // a failed validation leaves the cache alone; a fetched profile is
    // stored whole under the token, and nothing else changes
    ensures r.0.Err? ==> r.1 == entries
    ensures r.1 != entries ==> r.0.Ok? && r.1 == entries[token := TokenCache.UserEntry(r.0.value, storedAt)]
    // the outcome of each case: a fresh profile entry is served, a fresh
    // entry of the other kind fails, a miss gives what Graph gives
    ensures token in entries && TokenCache.IsFresh(entries[token], now) ==>
      if entries[token].UserEntry? then r.0 == Ok(entries[token].userData) else r.0.Err?
    ensures (token !in entries || !TokenCache.IsFresh(entries[token], now)) && reply.Success? ==>
      r == (Ok(reply.body), entries[token := TokenCache.UserEntry(reply.body, storedAt)])
    ensures (token !in entries || !TokenCache.IsFresh(entries[token], now)) && !reply.Success? ==>
      r == (Err(FetchFailure(reply)), entries)
  {
    if token in entries && TokenCache.IsFresh(entries[token], now) then
      // a fresh entry of the other kind has no 'user_data' field: KeyError
      (if entries[token].UserEntry? then Ok(entries[token].userData) else Err(Exception("'user_data'")), entries)
    else match reply
      case Success(user) => (Ok(user), entries[token := TokenCache.UserEntry(user, storedAt)])
      case _ => (Err(FetchFailure(reply)), entries)
  }

  /** A profile validated with Graph (no entry, or a stale one) is served
      from the cache for the next five minutes, whatever Graph would answer. */
  lemma {:induction false} ValidatedProfileIsCached(
    entries: map<string, TokenCache.Entry>, token: string, now: real, reply: Reply<UserData>, storedAt: real,
    later: real, reply2: Reply<UserData>, storedAt2: real)
    requires token !in entries || !TokenCache.IsFresh(entries[token], now)
    requires reply.Success?
    requires later - storedAt < TokenCache.CACHE_TIMEOUT
    ensures var (r1, cache1) := FetchUser(entries, token, now, reply, storedAt);
      FetchUser(cache1, token, later, reply2, storedAt2) == (r1, cache1)
  {
    var (r1, cache1) := FetchUser(entries, token, now, reply, storedAt);
    assert cache1[token] == TokenCache.UserEntry(reply.body, storedAt);
  }

  /** `get_user_from_token`: the filtered profile; the cache keeps the full one. */
  method GetUserFromToken(cache: TokenCache.Cache, token: string, now: real,
                          reply: Reply<UserData>, storedAt: real) returns (r: Result<map<string, Json>>)
    modifies cache
    ensures var (full, after) := FetchUser(old(cache.entries), token, now, reply, storedAt);
      && cache.entries == after
      && r == (if full.Ok? then Ok(FilterUserData(full.value)) else Err(full.error))
  {
    if token in cache.entries {
      var cached := cache.entries[token];
      if now - cached.timestamp < TokenCache.CACHE_TIMEOUT {
        if cached.UserEntry? {
          r := Ok(FilterUserData(cached.userData));
        } else {
          r := Err(Exception("'user_data'"));
        }
        return;
      }
    }
    match reply {
      case Success(user) =>
        var filtered := FilterUserData(user);
        cache.entries := cache.entries[token := TokenCache.UserEntry(user, storedAt)];
        r := Ok(filtered);
      case _ =>
        r := Err(FetchFailure(reply));
    }
  }
}
