/** API-key authentication (internal/middleware/auth.go): the bearer header
    is parsed as section 2.1 of RFC 6750 shows it, and the token is looked up
    among the enabled keys. The wrapped handler is represented by the
    outcome: Authorized(key) is the one call to it with the key attached. */
module Auth {
  import opened Wrappers
  import opened Models
  import opened Strings
  import APIKeyService

  const Unauthorized := 401
  const MissingHeaderMsg := "{\"error\":\"missing authorization header\"}"
  const InvalidFormatMsg := "{\"error\":\"invalid authorization format\"}"
  const InvalidKeyMsg := "{\"error\":\"invalid API key\"}"

  /** The credential in an Authorization value: an empty value is missing;
      otherwise it is split at its first space and the first part must be
      exactly "Bearer" (case-sensitive). The token is all the rest. */
  function BearerToken(authHeader: string): (r: Result<string>)
    ensures authHeader == "" ==> r == Err(MissingHeaderMsg)
    ensures authHeader != "" && r.Err? ==> r == Err(InvalidFormatMsg)
    ensures r.Ok? ==> authHeader == "Bearer " + r.value
  {
    if authHeader == "" then Err(MissingHeaderMsg)
    else
      var parts := SplitN2(authHeader, ' ');
      if |parts| != 2 || parts[0] != "Bearer" then Err(InvalidFormatMsg)
      else Ok(parts[1])
  }

  /** A value yields token t exactly when it is "Bearer " followed by t, so
      the token keeps any inner spaces and a lower-case scheme is refused. */
  lemma BearerTokenIff(authHeader: string, token: string)
    ensures BearerToken(authHeader) == Ok(token) <==> authHeader == "Bearer " + token
  {
    if authHeader == "Bearer " + token {
      assert authHeader == "Bearer" + [' '] + token;
      SplitN2At("Bearer", ' ', token);
    }
  }

  /** A lower-case scheme is not accepted. */
  lemma SchemeIsCaseSensitive(token: string)
    ensures BearerToken("bearer " + token).Err?
  {
    assert "bearer " + token == "bearer" + [' '] + token;
    SplitN2At("bearer", ' ', token);
    assert "bearer"[0] != "Bearer"[0];
  }

  /** What the middleware does with the request: reject with a response, or
      call the next handler with the key in the context. */
  datatype Outcome = Rejected(response: Response) | Authorized(key: APIKey)

  /** APIKeyAuth: 401 on a missing or malformed header, 401 when no enabled
      key has that exact token, otherwise the key is passed on. */
  function APIKeyAuth(request: Header, w: Header, keys: APIKeyService.APIKeyTable): (r: Outcome)
    reads keys
    ensures r.Rejected? ==> r.response.status == Unauthorized
    ensures r.Authorized? <==>
      exists token :: HeaderGet(request, "Authorization") == "Bearer " + token && keys.GetByKey(token).Ok?
    ensures r.Authorized? ==>
      && HeaderGet(request, "Authorization") == "Bearer " + r.key.key
      && r.key in keys.rows && r.key.enabled
    ensures HeaderGet(request, "Authorization") == "" ==> r == Rejected(ErrorResponse(w, Unauthorized, MissingHeaderMsg))
    ensures var b := BearerToken(HeaderGet(request, "Authorization"));
      HeaderGet(request, "Authorization") != "" && b.Err? ==>
        r == Rejected(ErrorResponse(w, Unauthorized, InvalidFormatMsg))
    ensures var b := BearerToken(HeaderGet(request, "Authorization"));
      b.Ok? && keys.GetByKey(b.value).Err? ==>
        r == Rejected(ErrorResponse(w, Unauthorized, InvalidKeyMsg))
  {
    match BearerToken(HeaderGet(request, "Authorization"))
    case Err(msg) =>
      assert forall token :: HeaderGet(request, "Authorization") != "Bearer " + token by {
        forall token
          ensures HeaderGet(request, "Authorization") != "Bearer " + token
        {
          BearerTokenIff(HeaderGet(request, "Authorization"), token);
        }
      }
      Rejected(ErrorResponse(w, Unauthorized, msg))
    case Ok(token) =>
      BearerTokenIff(HeaderGet(request, "Authorization"), token);
      match keys.GetByKey(token)
      case Err(_) => Rejected(ErrorResponse(w, Unauthorized, InvalidKeyMsg))
      case Ok(key) => Authorized(key)
  }
}
