/** The rate-limiting middleware (internal/middleware/ratelimit.go): it asks
    the fixed-window limiter about the authenticated key and either answers
    itself or passes the request on. Next stands for the one call to the
    next handler with the request unchanged. */
module RateLimitMiddleware {
  import opened Wrappers
  import opened Models
  import opened Strings
  import RateLimiter

  const IdentityPrefix := "apikey:"
  const MissingKeyMsg := "{\"error\":\"missing API key in context\"}"
  const CheckFailedMsg := "{\"error\":\"rate limit check failed\"}"
  const ExceededMsg := "{\"error\":\"rate limit exceeded\"}"
  const LimitHeader := "X-RateLimit-Limit"

  datatype Outcome = Rejected(response: Response) | Next

  /** The limiter identity of a key: "apikey:" and its id in decimal. */
  function Identity(key: APIKey): (identity: string)
    ensures HasPrefix(identity, IdentityPrefix)
    ensures identity[|IdentityPrefix|..] == NatToString(key.id)
  {
    IdentityPrefix + NatToString(key.id)
  }

  /** Keys share a counter exactly when they share an id. */
  lemma IdentityIffSameId(a: APIKey, b: APIKey)
    ensures Identity(a) == Identity(b) <==> a.id == b.id
  {
    if Identity(a) == Identity(b) {
      assert Identity(a)[|IdentityPrefix|..] == Identity(b)[|IdentityPrefix|..];
      NatToStringInjective(a.id, b.id);
    }
  }

  /** What the middleware answers once the limiter has judged the key: a
      limiter error is a 500, a denial is a 429 carrying the key's limit in
      decimal, and only an allowed call reaches the next handler. */
  function Decide(key: APIKey, allowed: bool, err: Option<string>, w: Header): (o: Outcome)
    ensures o.Next? <==> err.None? && allowed
    ensures err.Some? ==> o == Rejected(ErrorResponse(w, 500, CheckFailedMsg))
    ensures err.None? && !allowed ==>
      o == Rejected(ErrorResponse(SetHeader(w, LimitHeader, IntToString(key.rateLimitRPM)), 429, ExceededMsg))
    ensures err.None? && !allowed ==>
      && LimitHeader in o.response.header
      && o.response.header[LimitHeader] == [IntToString(key.rateLimitRPM)]
  {
    if err.Some? then Rejected(ErrorResponse(w, 500, CheckFailedMsg))
    else if !allowed then Rejected(ErrorResponse(SetHeader(w, LimitHeader, IntToString(key.rateLimitRPM)), 429, ExceededMsg))
    else Next
  }

  /** RateLimiting: without a key in the context the answer is 500 and the
      limiter is not consulted; otherwise the limiter counts the call under
      the key's identity with the key's per-minute limit, and Decide gives
      the answer. */
  method RateLimiting(limiter: RateLimiter.RateLimiter, apiKey: Option<APIKey>, w: Header, now: nat)
    returns (o: Outcome)
    modifies limiter
    ensures limiter.available == old(limiter.available)
    ensures apiKey.None? ==> o == Rejected(ErrorResponse(w, 500, MissingKeyMsg)) && limiter.counters == old(limiter.counters)
    ensures apiKey.Some? && !limiter.available ==>
      o == Rejected(ErrorResponse(w, 500, CheckFailedMsg)) && limiter.counters == old(limiter.counters)
    ensures apiKey.Some? && limiter.available ==>
      var step := RateLimiter.Step(old(limiter.counters), Identity(apiKey.value), apiKey.value.rateLimitRPM, now);
      && limiter.counters == step.0
      && o == Decide(apiKey.value, step.1, None, w)
  {
    if apiKey.None? {
      return Rejected(ErrorResponse(w, 500, MissingKeyMsg));
    }
    var key := apiKey.value;
    var allowed, err := limiter.Allow(Identity(key), key.rateLimitRPM, now);
    o := Decide(key, allowed, err, w);
  }
}
