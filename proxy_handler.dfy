/** The gateway's catch-all handler (internal/handlers/proxy_handler.go):
    resolve the route, serve a cached GET, otherwise forward to a backend,
    store an eligible answer, and record exactly one analytics event on every
    way out. The clock (seconds) and the measured latency are parameters;
    the backend call is the transport oracle of the proxy service. */
module ProxyHandler {
  import opened Wrappers
  import opened Models
  import opened Strings
  import RouteService
  import CacheRuleService
  import CacheService
  import ProxyService
  import Analytics

  /** The version prefixes tried, in order, when the exact path has no route. */
  const FallbackPrefixes: seq<string> := ["/api/", "/v1/", "/v2/"]
  const NotFoundMsg := "{\"error\":\"route not found\"}"
  const BadGatewayMsg := "{\"error\":\"backend request failed\"}"

  /** The parts of the incoming request the handler reads. */
  datatype Request = Request(verb: string, path: string, header: Header, body: string, remoteAddr: string)

  // ---- route resolution ----

  /** The path tried for fallback prefix j: the prefix removed and "/" put back. */
  function FallbackPath(path: string, j: nat): (p: string)
    requires j < |FallbackPrefixes| && HasPrefix(path, FallbackPrefixes[j])
    ensures HasPrefix(p, "/") && "/" + path[|FallbackPrefixes[j]|..] == p
  {
    "/" + path[|FallbackPrefixes[j]|..]
  }

  /** Fallback prefix j applies to the path and its stripped path has a route. */
  predicate FallbackHits(routes: RouteService.RouteTable, path: string, j: nat)
    reads routes
    requires j < |FallbackPrefixes|
  {
    HasPrefix(path, FallbackPrefixes[j]) && routes.GetByPath(FallbackPath(path, j)).Ok?
  }

  /** The index of the first fallback prefix, from j on, that hits. */
  function FirstHit(routes: RouteService.RouteTable, path: string, j: nat): (r: Option<nat>)
    reads routes
    requires j <= |FallbackPrefixes|
    ensures r.Some? ==> j <= r.value < |FallbackPrefixes| && FallbackHits(routes, path, r.value)
    ensures r.Some? ==> forall m :: j <= m < r.value ==> !FallbackHits(routes, path, m)
    ensures r.None? ==> forall m :: j <= m < |FallbackPrefixes| ==> !FallbackHits(routes, path, m)
    decreases |FallbackPrefixes| - j
  {
    if j == |FallbackPrefixes| then None
    else if FallbackHits(routes, path, j) then Some(j)
    else FirstHit(routes, path, j + 1)
  }

  /** Route resolution: the exact path first; only when it has no route,
      the fallbacks in order, the first hit winning. */
  function Resolve(routes: RouteService.RouteTable, path: string): (r: Option<Route>)
    reads routes
    ensures routes.GetByPath(path).Ok? ==> r == Some(routes.GetByPath(path).value)
    ensures routes.GetByPath(path).Err? && FirstHit(routes, path, 0).Some? ==>
      r == Some(routes.GetByPath(FallbackPath(path, FirstHit(routes, path, 0).value)).value)
    ensures r.None? <==>
      routes.GetByPath(path).Err? && forall k :: 0 <= k < |FallbackPrefixes| ==> !FallbackHits(routes, path, k)
    ensures r.Some? ==> r.value in routes.rows
  {
    match routes.GetByPath(path)
    case Ok(route) => Some(route)
    case Err(_) =>
      match FirstHit(routes, path, 0)
      case None => None
      case Some(k) => Some(routes.GetByPath(FallbackPath(path, k)).value)
  }

  /** At most one version prefix applies to a path, so a fallback strips
      exactly one prefix. */
  lemma PrefixesExclusive(path: string, i: nat, j: nat)
    requires i < |FallbackPrefixes| && j < |FallbackPrefixes|
    requires HasPrefix(path, FallbackPrefixes[i]) && HasPrefix(path, FallbackPrefixes[j])
    ensures i == j
  {
    assert FallbackPrefixes[i][1] == path[1] == FallbackPrefixes[j][1];
    assert FallbackPrefixes[i][2] == path[2] == FallbackPrefixes[j][2];
  }

  // ---- analytics event ----

  /** The IP recorded for a remote address: the text before its first ':'
      (for a bracketed IPv6 address that is just "["). */
  function ClientIP(remoteAddr: string): (ip: string)
    ensures ':' !in ip && HasPrefix(remoteAddr, ip)
    ensures ip == remoteAddr || remoteAddr[|ip|] == ':'
  {
    Split(remoteAddr, ':')[0]
  }

  /** The first piece of strings.Split is the text before the first ':'. */
  lemma ClientIPIsHead(remoteAddr: string)
    ensures ClientIP(remoteAddr) == SplitN2(remoteAddr, ':')[0]
  {
  }

  /** For host:port with a colon-free host (an IPv4 address or a name),
      the recorded IP is the host. */
  lemma ClientIPOfHostPort(host: string, port: string)
    requires ':' !in host
    ensures ClientIP(host + ":" + port) == host
  {
    ClientIPIsHead(host + ":" + port);
    assert host + ":" + port == host + [':'] + port;
    SplitN2At(host, ':', port);
  }

  /** For a bracketed IPv6 address the recorded IP is only "[". */
  lemma ClientIPv6Loopback()
    ensures ClientIP("[::1]:8080") == "["
  {
    ClientIPOfHostPort("[", ":1]:8080");
    assert "[" + ":" + ":1]:8080" == "[::1]:8080";
  }

  /** trackEvent's event: no key gives no key id and an empty user id. */
  function EventFor(routeId: Option<nat>, apiKey: Option<APIKey>, status: int, now: nat, latencyMs: nat,
                    cacheHit: bool, remoteAddr: string): (e: AnalyticsEvent)
    ensures apiKey.None? ==> e.apiKeyId.None? && e.userId == ""
    ensures apiKey.Some? ==> e.apiKeyId == Some(apiKey.value.id) && e.userId == apiKey.value.userId
    ensures e.routeId == routeId && e.statusCode == status && e.cacheHit == cacheHit
    ensures e.ipAddress == ClientIP(remoteAddr) && e.timestamp == now && e.latencyMs == latencyMs
  {
    AnalyticsEvent(now, routeId,
      if apiKey.Some? then Some(apiKey.value.id) else None,
      if apiKey.Some? then apiKey.value.userId else "",
      status, latencyMs, cacheHit, ClientIP(remoteAddr))
  }

  // ---- cache eligibility and responses ----

  /** A cached answer is looked for only for GET with an enabled rule. */
  predicate CacheEligible(verb: string, rule: Result<CacheRule>) {
    verb == "GET" && rule.Ok? && rule.value.enabled
  }

  /** An upstream answer is stored only when it is also exactly 200. */
  predicate Storable(verb: string, rule: Result<CacheRule>, status: int) {
    CacheEligible(verb, rule) && status == 200
  }


  function HitResponse(w: Header, cached: string): (r: Response)
    ensures r.status == 200 && r.body == cached
    ensures r.header.Keys == w.Keys + {"Content-Type", "X-Cache"}
    ensures r.header["X-Cache"] == ["HIT"] && r.header["Content-Type"] == ["application/json"]
  {
    Response(200, SetHeader(SetHeader(w, "Content-Type", "application/json"), "X-Cache", "HIT"), cached)
  }

  /** The client sees the upstream status and body, every upstream header
      value added to its own, and X-Cache: MISS. */
  function MissResponse(w: Header, up: ProxyService.Upstream): (r: Response)
    ensures r.status == up.status && r.body == up.body
    ensures "X-Cache" in r.header && r.header["X-Cache"] == ["MISS"]
    ensures forall k :: k != "X-Cache" && k in up.header && up.header[k] != [] ==>
      k in r.header && r.header[k] == (if k in w then w[k] else []) + up.header[k]
  {
    Response(up.status, SetHeader(WithAdded(w, up.header), "X-Cache", "MISS"), up.body)
  }

  /** trackEvent: builds the event and offers it to the analytics queue. */
  method TrackEvent(analytics: Analytics.Analytics, routeId: Option<nat>, apiKey: Option<APIKey>, status: int,
                    now: nat, latencyMs: nat, cacheHit: bool, remoteAddr: string)
    requires analytics.Valid()
    modifies analytics
    ensures analytics.Valid()
    ensures analytics.queue == Analytics.Offer(old(analytics.queue), EventFor(routeId, apiKey, status, now, latencyMs, cacheHit, remoteAddr))
    ensures analytics.events == old(analytics.events) && analytics.flushes == old(analytics.flushes)
    ensures analytics.table == old(analytics.table) && analytics.stopped == old(analytics.stopped)
  {
    analytics.TrackRequest(EventFor(routeId, apiKey, status, now, latencyMs, cacheHit, remoteAddr));
  }

  // ---- the handler's effect as a function of the state before it ----

  /** What one request leaves behind in the proxy and the cache: the
      response, the round-robin counters and the cache entries. */
  datatype Effect = Effect(resp: Response, counters: map<string, nat>, entries: CacheService.Store)

  /** Forwarding for a resolved route after the cache did not answer: an
      empty backend list or a transport error is a 502 with nothing cached;
      otherwise the client gets the upstream answer, and an eligible 200 is
      stored under the request's key with the rule's TTL when the cache is
      reachable. Only that body, and only then, is ever cached. */
  function Forwarded(counters: map<string, nat>, entries: CacheService.Store, available: bool,
                     route: Route, rule: Result<CacheRule>, key: string, req: Request, w: Header,
                     transport: ProxyService.Outbound -> Result<ProxyService.Upstream>, now: nat): (e: Effect)
    ensures |route.backendURLs| == 0 ==> e == Effect(ErrorResponse(w, 502, BadGatewayMsg), counters, entries)
    ensures |route.backendURLs| >= 1 ==>
      var up := transport(ProxyService.OutboundFor(counters, route.backendURLs, req.verb, req.path,
                                                   route.path, req.header, req.body, route.timeoutMs));
      && e.counters == ProxyService.CountersAfter(counters, |route.backendURLs|, req.path)
      && (up.Err? ==> e.resp == ErrorResponse(w, 502, BadGatewayMsg) && e.entries == entries)
      && (up.Ok? ==> e.resp == MissResponse(w, up.value))
      && (up.Ok? && available && Storable(req.verb, rule, up.value.status) ==>
            e.entries == CacheService.Stored(entries, key, up.value.body, rule.value.ttlSeconds, now))
    ensures e.entries == entries
      || (available && Storable(req.verb, rule, e.resp.status)
          && e.entries == CacheService.Stored(entries, key, e.resp.body, rule.value.ttlSeconds, now))
  {
    if |route.backendURLs| == 0 then Effect(ErrorResponse(w, 502, BadGatewayMsg), counters, entries)
    else
      var up := transport(ProxyService.OutboundFor(counters, route.backendURLs, req.verb, req.path,
                                                    route.path, req.header, req.body, route.timeoutMs));
      var after := ProxyService.CountersAfter(counters, |route.backendURLs|, req.path);
      if up.Err? then Effect(ErrorResponse(w, 502, BadGatewayMsg), after, entries)
      else if Storable(req.verb, rule, up.value.status) && available then
        Effect(MissResponse(w, up.value), after, CacheService.Stored(entries, key, up.value.body, rule.value.ttlSeconds, now))
      else Effect(MissResponse(w, up.value), after, entries)
  }

  /** Serving a resolved route, given the rule and what the cache lookup
      returned: a GET with an enabled rule and a live cached value is
      answered from the cache with nothing else changed; a cache error or a
      miss is never a failure and falls through to forwarding. The flag says
      whether the cache answered. */
  function Served(counters: map<string, nat>, entries: CacheService.Store, available: bool,
                  route: Route, rule: Result<CacheRule>, key: string, cached: Result<Option<string>>,
                  req: Request, w: Header,
                  transport: ProxyService.Outbound -> Result<ProxyService.Upstream>, now: nat): (r: (Effect, bool))
    ensures r.1 <==> CacheEligible(req.verb, rule) && cached.Ok? && cached.value.Some?
    ensures r.1 ==> r.0 == Effect(HitResponse(w, cached.value.value), counters, entries)
    ensures !r.1 ==> r.0 == Forwarded(counters, entries, available, route, rule, key, req, w, transport, now)
  {
    if CacheEligible(req.verb, rule) && cached.Ok? && cached.value.Some? then
      (Effect(HitResponse(w, cached.value.value), counters, entries), true)
    else (Forwarded(counters, entries, available, route, rule, key, req, w, transport, now), false)
  }

  /** The cache is only ever written for a GET with an enabled rule whose
      backend answered 200 while the cache was reachable: a non-GET request,
      a disabled or missing rule, a failed or non-200 answer, or an
      unreachable cache leaves it as it was. */
  lemma OnlyGetOkStored(counters: map<string, nat>, entries: CacheService.Store, available: bool,
                        route: Route, rule: Result<CacheRule>, key: string, cached: Result<Option<string>>,
                        req: Request, w: Header,
                        transport: ProxyService.Outbound -> Result<ProxyService.Upstream>, now: nat)
    ensures Served(counters, entries, available, route, rule, key, cached, req, w, transport, now).0.entries != entries ==>
      && req.verb == "GET" && rule.Ok? && rule.value.enabled && available && |route.backendURLs| >= 1
      && var up := transport(ProxyService.OutboundFor(counters, route.backendURLs, req.verb, req.path,
                                                      route.path, req.header, req.body, route.timeoutMs));
         up.Ok? && up.value.status == 200
  {
  }

  /** A 200 stored on a miss is what the next identical request gets from the
      cache until its TTL runs out: answered as a hit with the stored body,
      without forwarding and without changing counters or cache. */
  lemma MissThenHit(counters: map<string, nat>, entries: CacheService.Store,
                    route: Route, rule: Result<CacheRule>, key: string, cached: Result<Option<string>>,
                    req: Request, w: Header, w2: Header,
                    transport: ProxyService.Outbound -> Result<ProxyService.Upstream>, now: nat, later: nat)
    requires CacheEligible(req.verb, rule) && |route.backendURLs| >= 1
    requires !(cached.Ok? && cached.value.Some?)
    requires
      var up := transport(ProxyService.OutboundFor(counters, route.backendURLs, req.verb, req.path,
                                                   route.path, req.header, req.body, route.timeoutMs));
      up.Ok? && up.value.status == 200
    requires now <= later && (rule.value.ttlSeconds > 0 ==> later < now + rule.value.ttlSeconds)
    ensures
      var first := Served(counters, entries, true, route, rule, key, cached, req, w, transport, now).0;
      var up := transport(ProxyService.OutboundFor(counters, route.backendURLs, req.verb, req.path,
                                                   route.path, req.header, req.body, route.timeoutMs));
      var again := CacheService.Lookup(first.entries, true, key, later);
      Served(first.counters, first.entries, true, route, rule, key, again, req, w2, transport, later)
        == (Effect(HitResponse(w2, up.value.body), first.counters, first.entries), true)
  {
    var up := transport(ProxyService.OutboundFor(counters, route.backendURLs, req.verb, req.path,
                                                 route.path, req.header, req.body, route.timeoutMs));
    var first := Served(counters, entries, true, route, rule, key, cached, req, w, transport, now).0;
    assert first.entries == CacheService.Stored(entries, key, up.value.body, rule.value.ttlSeconds, now);
    assert CacheService.Lookup(first.entries, true, key, later) == Ok(Some(up.value.body));
  }

  method ForwardToBackend(route: Route, rule: Result<CacheRule>, key: string, proxy: ProxyService.ProxyService,
                          cache: CacheService.CacheStore, req: Request, w: Header,
                          transport: ProxyService.Outbound -> Result<ProxyService.Upstream>, now: nat)
    returns (resp: Response)
    requires proxy.Valid()
    modifies proxy, cache
    ensures proxy.Valid() && cache.available == old(cache.available)
    ensures Effect(resp, proxy.counters, cache.entries)
      == Forwarded(old(proxy.counters), old(cache.entries), old(cache.available), route, rule, key, req, w, transport, now)
  {
    ghost var before := Forwarded(proxy.counters, cache.entries, cache.available, route, rule, key, req, w, transport, now);
    var up := proxy.Forward(route.backendURLs, req.verb, req.path, route.path, req.header, req.body, route.timeoutMs, transport);
    if up.Err? {
      return ErrorResponse(w, 502, BadGatewayMsg);
    }
    var upstream := up.value;
    assert before.counters == proxy.counters && before.resp == MissResponse(w, upstream);
    if req.verb == "GET" && rule.Ok? && rule.value.enabled && upstream.status == 200 {
      var _ := cache.Set(key, upstream.body, rule.value.ttlSeconds, now);
    }
    var out := AddAll(w, upstream.header);
    out := SetHeader(out, "X-Cache", "MISS");
    resp := Response(upstream.status, out, upstream.body);
  }

  /** ServeRoute: the cache key is built from the request path (not the
      route path), the method and the body read once; that same body is
      what is forwarded. One event is offered, carrying the status the
      client got and whether the cache answered. */
  method ServeRoute(route: Route, rules: CacheRuleService.CacheRuleTable,
                    proxy: ProxyService.ProxyService, cache: CacheService.CacheStore, analytics: Analytics.Analytics,
                    req: Request, apiKey: Option<APIKey>, w: Header,
                    transport: ProxyService.Outbound -> Result<ProxyService.Upstream>, now: nat, latencyMs: nat)
    returns (resp: Response)
    requires proxy.Valid() && analytics.Valid()
    modifies proxy, cache, analytics
    ensures proxy.Valid() && analytics.Valid() && cache.available == old(cache.available)
    ensures analytics.events == old(analytics.events) && analytics.flushes == old(analytics.flushes)
    ensures analytics.table == old(analytics.table) && analytics.stopped == old(analytics.stopped)
    ensures
      var key := cache.GenerateKey(req.path, req.verb, req.body);
      var s := Served(old(proxy.counters), old(cache.entries), old(cache.available), route,
                      rules.GetByRouteID(route.id), key, old(cache.Get(key, now)), req, w, transport, now);
      && Effect(resp, proxy.counters, cache.entries) == s.0
      && analytics.queue == Analytics.Offer(old(analytics.queue),
           EventFor(Some(route.id), apiKey, resp.status, now, latencyMs, s.1, req.remoteAddr))
  {
    var key := cache.GenerateKey(req.path, req.verb, req.body);
    var rule := rules.GetByRouteID(route.id);
    ghost var s := Served(proxy.counters, cache.entries, cache.available, route, rule, key, cache.Get(key, now),
                          req, w, transport, now);
    if req.verb == "GET" && rule.Ok? && rule.value.enabled {
      var cached := cache.Get(key, now);
      if cached.Ok? && cached.value.Some? {
        resp := HitResponse(w, cached.value.value);
        assert s.1 && s.0 == Effect(resp, proxy.counters, cache.entries);
        TrackEvent(analytics, Some(route.id), apiKey, 200, now, latencyMs, true, req.remoteAddr);
        return;
      }
    }
    assert !s.1;
    resp := ForwardToBackend(route, rule, key, proxy, cache, req, w, transport, now);
    TrackEvent(analytics, Some(route.id), apiKey, resp.status, now, latencyMs, false, req.remoteAddr);
  }

  /** Forward, the whole dispatch: an unresolvable path is a 404 with no
      cache lookup, no forwarding and one event without a route; a resolved
      route is served as ServeRoute says. */
  method Forward(routes: RouteService.RouteTable, rules: CacheRuleService.CacheRuleTable,
                 proxy: ProxyService.ProxyService, cache: CacheService.CacheStore, analytics: Analytics.Analytics,
                 req: Request, apiKey: Option<APIKey>, w: Header,
                 transport: ProxyService.Outbound -> Result<ProxyService.Upstream>, now: nat, latencyMs: nat)
    returns (resp: Response)
    requires proxy.Valid() && analytics.Valid()
    modifies proxy, cache, analytics
    ensures proxy.Valid() && analytics.Valid() && cache.available == old(cache.available)
    ensures analytics.events == old(analytics.events) && analytics.flushes == old(analytics.flushes)
    ensures analytics.table == old(analytics.table) && analytics.stopped == old(analytics.stopped)
    ensures Resolve(routes, req.path).None? ==>
      && resp == ErrorResponse(w, 404, NotFoundMsg)
      && proxy.counters == old(proxy.counters) && cache.entries == old(cache.entries)
      && analytics.queue == Analytics.Offer(old(analytics.queue), EventFor(None, apiKey, 404, now, latencyMs, false, req.remoteAddr))
    ensures Resolve(routes, req.path).Some? ==>
      var route := Resolve(routes, req.path).value;
      var key := cache.GenerateKey(req.path, req.verb, req.body);
      var s := Served(old(proxy.counters), old(cache.entries), old(cache.available), route,
                      rules.GetByRouteID(route.id), key, old(cache.Get(key, now)), req, w, transport, now);
      && Effect(resp, proxy.counters, cache.entries) == s.0
      && analytics.queue == Analytics.Offer(old(analytics.queue),
           EventFor(Some(route.id), apiKey, resp.status, now, latencyMs, s.1, req.remoteAddr))
  {
    var resolved := Resolve(routes, req.path);
    if resolved.None? {
      resp := ErrorResponse(w, 404, NotFoundMsg);
      TrackEvent(analytics, None, apiKey, 404, now, latencyMs, false, req.remoteAddr);
      return;
    }
    resp := ServeRoute(resolved.value, rules, proxy, cache, analytics, req, apiKey, w, transport, now, latencyMs);
  }
}
