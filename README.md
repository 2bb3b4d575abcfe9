# API gateway core in Dafny

This project models the request path of a small HTTP API gateway written in Go, and proves properties of the model.

For each incoming request the gateway does the following:

- It authenticates the caller, either with an API key sent as a bearer token or with a JWT checked against a JWKS key set.
- It applies a fixed-window per-key rate limit.
- It resolves the request path to a configured route. The exact path is tried first, then the path with one `/api/`, `/v1/` or `/v2/` prefix removed.
- For a GET on a route with an enabled cache rule, it answers from a Redis-style cache when it can.
- Otherwise it forwards the request to one of the route's backends, picked round-robin per path. It stores eligible answers in the cache.
- It records one analytics event per request. A background loop batches these events into a database table.

The administrative tables (routes, API keys, cache rules) are modelled as in-memory tables. The process configuration is modelled as a function of an environment map.

Layout, one module per source file:

| file | module | models |
|---|---|---|
| `route_service.dfy` | `RouteService` | the routes table |
| `apikey_service.dfy` | `APIKeyService` | the API-key table and key generation |
| `cacherule_service.dfy` | `CacheRuleService` | the cache-rule table |
| `cache_service.dfy` | `CacheService` | the response cache, key fingerprint, TTL and pattern delete |
| `ratelimiter.dfy` | `RateLimiter` | fixed-window counters |
| `ratelimit_middleware.dfy` | `RateLimitMiddleware` | the 500/429/pass decision |
| `auth.dfy` | `Auth` | bearer header parsing and API-key lookup |
| `clerk_auth.dfy` | `ClerkAuth` | JWKS key cache, exponent decoding, JWT middleware checks |
| `proxy_service.dfy` | `ProxyService` | backend selection, path rewriting, outbound request |
| `proxy_handler.dfy` | `ProxyHandler` | the dispatch: resolve, cache, forward, store, record |
| `analytics.dfy` | `Analytics` | the event queue, batching loop and flushes |
| `config.dfy` | `Config` | environment settings and the CORS origin list |

Six supporting modules hold no source logic of their own:

- `Wrappers`: `Option` and `Result`.
- `Strings`: the parts of Go's `strings` package and `%d` formatting that the gateway uses.
- `Encoding`: lower-case hex, and base64url as section 5 of RFC 4648 defines it, with and without padding.
- `Models`: the records, and `net/http` header operations.
- `Tables`: search and removal over the rows of the in-memory tables, kept in insertion order.
- `Arith`: facts about multiplication and Euclidean remainder used by the counter and exponent proofs.

State that the Go code mutates is a class:

- tables: `RouteTable`, `APIKeyTable`, `CacheRuleTable`;
- stores: `CacheStore`, `RateLimiter`;
- the per-path counters in `ProxyService`;
- the key map in `ClerkAuth`;
- the queue and batches in `Analytics`.

Every method that changes a class states the whole new state. A pure function specifies each such method, and lemmas state the properties of those functions.

Some inputs are parameters rather than modelled code:

- the clock, in seconds, and the measured latency;
- the random bytes of a new API key;
- SHA-256, a function fixed when the cache store is built;
- the HTTP transport to backends, a function from the outbound request to a response or an error;
- the fetched JWKS document;
- JWT parsing and signature checking;
- the database's failure point within a batch.

## Model

| member | source | states |
|---|---|---|
| RouteService.WithDefaults | internal/services/route_service.go:20-25 | an empty strategy becomes "round-robin" and a zero timeout 30000; every other field is kept |
| RouteService.WithDefaultsIdempotent | internal/services/route_service.go:20-25 | applying the defaults twice equals applying them once |
| RouteService.Updated | internal/services/route_service.go:102-106 | an update sets backend URLs, strategy, timeout and retry count; id and path are unchanged and no defaults are applied |
| RouteService.RouteTable.Create | internal/services/route_service.go:19-41 | the defaulted request is appended under a fresh, larger id |
| RouteService.RouteTable.GetByPath | internal/services/route_service.go:43-57 | a route is returned only on an exact path match; the result is an error exactly when no row has that path |
| RouteService.RouteTable.GetByID | internal/services/route_service.go:59-73 | a route is returned only for its id; the result is an error exactly when no row has it |
| RouteService.RouteTable.List | internal/services/route_service.go:75-96 | the result is every route, newest first, with ids strictly descending |
| RouteService.RouteTable.Update | internal/services/route_service.go:98-114 | a missing id is an error and the table is unchanged; otherwise only that row changes, to `Updated` |
| RouteService.RouteTable.Delete | internal/services/route_service.go:116-122 | the rows with that id are gone and the others keep their order; a missing id changes nothing |
| APIKeyService.GenerateAPIKey | internal/services/apikey_service.go:102-108 | the key is "gw_" plus the first 43 characters of the padded base64url encoding of 32 bytes; it is 46 characters long and all characters after the prefix are in the URL-safe alphabet |
| APIKeyService.GeneratedKeyDecodes | internal/services/apikey_service.go:107 | the 43 characters decode back to the 32 random bytes |
| APIKeyService.GeneratedKeysDistinct | internal/services/apikey_service.go:102-108 | different random bytes give different keys |
| APIKeyService.TierOrDefault | internal/services/apikey_service.go:27-29 | an empty tier becomes "free"; any other tier is kept |
| APIKeyService.RevokedRows | internal/services/apikey_service.go:87 | rows with that id become disabled; all other rows are unchanged |
| APIKeyService.RevokeIdempotent | internal/services/apikey_service.go:86-92 | revoking twice equals revoking once |
| APIKeyService.APIKeyTable.Create | internal/services/apikey_service.go:21-45 | a random-source failure is an error and inserts nothing; otherwise the key is stored enabled, with the tier defaulted and the rate limit as given |
| APIKeyService.APIKeyTable.GetByKey | internal/services/apikey_service.go:47-61 | a key is found exactly when some row has that exact token and is enabled |
| APIKeyService.APIKeyTable.List | internal/services/apikey_service.go:63-84 | the result is every key, disabled ones included, newest first |
| APIKeyService.APIKeyTable.Revoke | internal/services/apikey_service.go:86-92 | the table becomes `RevokedRows`; afterwards no token finds the revoked id |
| APIKeyService.APIKeyTable.Delete | internal/services/apikey_service.go:94-100 | no row with that id remains and the others keep their order; a missing id is not an error |
| CacheRuleService.PatternOrDefault | internal/services/cacherule_service.go:20-22 | an empty key pattern becomes "*"; any other pattern is kept |
| CacheRuleService.CacheRuleTable.Create | internal/services/cacherule_service.go:19-38 | the rule is appended enabled, under a fresh id, with the pattern defaulted |
| CacheRuleService.CacheRuleTable.GetByRouteID | internal/services/cacherule_service.go:40-54 | a rule is returned only if it is for that route and enabled, so a disabled rule looks absent |
| CacheRuleService.CacheRuleTable.List | internal/services/cacherule_service.go:56-77 | the result is every rule, ids descending |
| CacheRuleService.CacheRuleTable.Update | internal/services/cacherule_service.go:79-93 | a present id gives `Ok` with that row as RETURNING gives it: its id, route id and key pattern kept, TTL and enabled replaced; only that row changes; a missing id is an error and changes nothing |
| CacheRuleService.CacheRuleTable.Delete | internal/services/cacherule_service.go:95-101 | no rule with that id remains; a missing id is not an error |
| CacheService.ExpiryFor | internal/services/cache_service.go:34 | a positive TTL expires that many seconds from now; zero or a negative TTL means no expiry |
| CacheService.StarMatchesAll | internal/services/cache_service.go:41 | the pattern "*" matches every key |
| CacheService.GlobMatch | internal/services/cache_service.go:41 | a pattern without `*`, `?` or a backslash matches exactly itself |
| CacheService.PrefixStarMatch | internal/services/cache_service.go:41 | a literal prefix followed by "*" matches exactly the keys with that prefix |
| CacheService.InvalidatePattern | internal/handlers/cacherule_handler.go:131-133 | an empty invalidation pattern becomes "cache:*" |
| CacheService.Lookup | internal/services/cache_service.go:21-31 | a store failure is an error; an absent or expired key is a miss and not an error; a live key gives its value |
| CacheService.WithoutMatching | internal/services/cache_service.go:40-50 | exactly the keys that do not match remain, with their values |
| CacheService.SetThenGet | internal/services/cache_service.go:33-38 | after Set, Get of that key returns the value until the TTL runs out; other keys read as before |
| CacheService.ExpiredIsMiss | internal/services/cache_service.go:33-38 | once a positive TTL has run out, Get is a miss |
| CacheService.InvalidateAllClearsCache | internal/services/cache_service.go:40-50 | invalidating with the default pattern makes every "cache:" key miss and leaves other keys alone |
| CacheService.CacheStore.GenerateKey | internal/services/cache_service.go:53-56 | the key is "cache:" plus 64 lower-case hex digits of the SHA-256 of path+method+body (70 characters) |
| CacheService.CacheStore.SameKeyIffSameDigest | internal/services/cache_service.go:54 | two requests get the same key exactly when their concatenations have the same digest |
| CacheService.CacheStore.Get | internal/services/cache_service.go:21-31 | Get reads the store as `Lookup` says |
| CacheService.CacheStore.Set | internal/services/cache_service.go:33-38 | a store failure is an error and changes nothing; otherwise the key holds the value with its expiry |
| CacheService.CacheStore.Delete | internal/services/cache_service.go:40-51 | keys that do not match are never touched; with no failing delete, exactly the matching keys go; a failing delete stops with an error, and every key it removed before stopping was a matching one |
| RateLimiter.WindowStart | internal/services/ratelimiter.go:21 | the window start is the multiple of 60 at or below now |
| RateLimiter.WindowKeyInjective | internal/services/ratelimiter.go:22 | two calls share a key exactly when they share the identity and the minute |
| RateLimiter.WindowKey | internal/services/ratelimiter.go:20-22 | the key is "ratelimit:", the identity and ":", followed by the decimal digits of the window start |
| RateLimiter.Step | internal/services/ratelimiter.go:24-33 | every call increments the window counter by one and refreshes its expiry to 120 s; the call is allowed iff the new count is at most the limit, and never when the limit is 0 or less |
| RateLimiter.WindowAdmitsLimit | internal/services/ratelimiter.go:25-33 | within one window the k-th call sees count k, so calls 1..limit are allowed and later ones are denied |
| RateLimiter.StepIndependent | internal/services/ratelimiter.go:22 | a call never changes another identity's or another minute's count |
| RateLimiter.RateLimiter.Allow | internal/services/ratelimiter.go:19-34 | a store failure gives (false, error) and counts nothing; otherwise the store and the answer are as `Step` says |
| RateLimiter.RateLimiter.GetCount | internal/services/ratelimiter.go:36-50 | GetCount returns the current window's count, 0 when absent, and changes nothing; a store failure is an error |
| RateLimitMiddleware.Identity | internal/middleware/ratelimit.go:19 | the identity is "apikey:" followed by the key id in decimal |
| RateLimitMiddleware.IdentityIffSameId | internal/middleware/ratelimit.go:19 | two keys share a limiter identity exactly when they share an id |
| RateLimitMiddleware.Decide | internal/middleware/ratelimit.go:20-32 | a limiter error gives the 500 "rate limit check failed" error response; a denial gives the http.Error 429 response with body "rate limit exceeded" and X-RateLimit-Limit set to the RPM in decimal; only an allowed call reaches the next handler |
| RateLimitMiddleware.RateLimiting | internal/middleware/ratelimit.go:10-33 | with no key the answer is 500 and the limiter is untouched; otherwise the limiter counts the call under the key's identity and RPM |
| Auth.BearerToken | internal/middleware/auth.go:15-25 | an empty header is "missing"; otherwise the first part must be exactly "Bearer", else the format is invalid |
| Auth.BearerTokenIff | internal/middleware/auth.go:21-27 | a header yields token t exactly when it is "Bearer " followed by t, so inner spaces stay in the token |
| Auth.SchemeIsCaseSensitive | internal/middleware/auth.go:22 | the scheme "bearer" is refused |
| Auth.APIKeyAuth | internal/middleware/auth.go:12-37 | every rejection is a 401 http.Error response: "missing authorization header" for an empty header, "invalid authorization format" for a malformed one, "invalid API key" when no enabled key has the token; the key is passed on exactly when the header is "Bearer " plus a token of an enabled key |
| Tables.NewestFirst | internal/services/route_service.go:86-93 | the rows collected from a newest-first query are the table's rows in reverse insertion order |
| ClerkAuth.ToInt64 | internal/middleware/clerk_auth.go:92-95 | a 64-bit pattern reads as a signed int in range with the same low 64 bits |
| ClerkAuth.ExponentSmall | internal/middleware/clerk_auth.go:92-95 | up to 7 bytes the exponent is the big-endian value; bytes [1,0,1] give 65537 and no bytes give 0 |
| ClerkAuth.ShiftInLow64 | internal/middleware/clerk_auth.go:94 | shifting a byte into a 64-bit register commutes with keeping the low 64 bits |
| ClerkAuth.FoldExponent | internal/middleware/clerk_auth.go:92-95 | the fold loop gives the low 64 bits of the big-endian value, read as a signed int |
| ClerkAuth.KeyOf | internal/middleware/clerk_auth.go:78-100 | a JWK gives a key exactly when kty is "RSA" and both n and e decode as unpadded base64url |
| ClerkAuth.InstalledKeys | internal/middleware/clerk_auth.go:77-103 | after a fetch a kid is present exactly when it was before or a usable JWK carries it |
| ClerkAuth.UnnamedKeysKept | internal/middleware/clerk_auth.go:77-103 | a kid that no usable JWK carries keeps its key |
| ClerkAuth.LastUsableWins | internal/middleware/clerk_auth.go:102 | a later usable JWK overwrites an earlier key with the same kid |
| ClerkAuth.ClerkAuth.constructor | internal/middleware/clerk_auth.go:40-50 | an empty JWKS URL is replaced by the fixed default; the key map starts empty |
| ClerkAuth.ClerkAuth.FetchKeys | internal/middleware/clerk_auth.go:62-106 | a failed fetch changes nothing and returns the error; otherwise the usable keys are installed in order; no kid is ever removed |
| ClerkAuth.ClerkAuth.GetPublicKey | internal/middleware/clerk_auth.go:108-124 | a cached kid is returned without fetching; on a miss the key map becomes `KeysAfterLookup` (one refetch, its error ignored) and the result is the key now under the kid, an error if it is still absent |
| ClerkAuth.KeysAfterLookup | internal/middleware/clerk_auth.go:108-124 | a hit or a failed refetch leaves the key map as it was; no kid is ever removed; afterwards the kid is present exactly when it was before or a usable JWK of the refetched set carries it |
| ClerkAuth.InstalledGrows | internal/middleware/clerk_auth.go:77-103 | installing a fetched key set never removes a kid |
| ClerkAuth.ClerkAuth.Middleware | internal/middleware/clerk_auth.go:126-177 | a bad Authorization header is rejected with `Auth.BearerToken`'s message and no lookup; a token that does not parse, is not RSA or has no string kid is "invalid token" with no lookup; otherwise the key map becomes `KeysAfterLookup` for the kid, a missing or non-verifying key is "invalid token", a verified token without a string sub is "user ID not found in token", and a verified token with sub u authenticates u; every rejection is 401 |
| ProxyService.Bump | internal/services/proxy_service.go:90 | the uint64 counter increment stays below 2^64 and is plain +1 below the wrap |
| ProxyService.BumpsNoWrap | internal/services/proxy_service.go:90 | k increments without wrapping add k |
| ProxyService.FreshPathPicks | internal/services/proxy_service.go:84-91 | for a new path the k-th multi-backend call picks index k mod n, so the first call picks index 1 |
| ProxyService.RoundRobinCycle | internal/services/proxy_service.go:90-91 | n consecutive selections over n backends pick every index exactly once |
| ProxyService.SelectedIndex | internal/services/proxy_service.go:79-91 | the selected index is always a valid index into the backend list |
| ProxyService.ProxyService.constructor | internal/services/proxy_service.go:19-31 | the service starts with no counters |
| ProxyService.ProxyService.SelectBackend | internal/services/proxy_service.go:79-92 | one backend is returned without touching the counters; otherwise only this path's counter changes, created at 0 and bumped once, and it picks the new value mod n; no counter is removed |
| ProxyService.TrimmedPathAsWritten | internal/services/proxy_service.go:40-46 | whenever the route path is a string prefix of the request path, the result is what follows it; a request path without that prefix is kept; an empty rest becomes "/" |
| ProxyService.TrimCutsInsideSegment | internal/services/proxy_service.go:40-57 | route "/a" reached as "/api/a" is forwarded as "pi/a", giving the URL "http://backendpi/a" |
| ProxyService.BackendPath | internal/services/proxy_service.go:40-46 | the route path is stripped only when it is the whole path or is followed by "/"; a path starting with "/" keeps a leading "/"; the result differs from the as-written trim only where the route path is a proper prefix not followed by "/", which covers a cut inside a segment and a route path ending in "/" |
| ProxyService.FinalURL | internal/services/proxy_service.go:57 | the URL is the backend followed by the path, with no escaping |
| ProxyService.OutboundHeader | internal/services/proxy_service.go:64-69 | every caller header with values is copied, and Accept is set to application/json |
| ProxyService.OutboundFor | internal/services/proxy_service.go:57-69 | the outbound request keeps the method, body and timeout, and goes to one of the backends plus the backend path |
| ProxyService.ProxyService.BuildHeader | internal/services/proxy_service.go:64-69 | the copy loop produces `OutboundHeader` |
| ProxyService.ProxyService.Forward | internal/services/proxy_service.go:33-77 | no backends is an error before any counter change; otherwise the selection advances and the transport's answer or error is returned unchanged |
| Models.AddAll | internal/handlers/proxy_handler.go:102-106 | the copy loop adds every value after the existing ones; a name with no values is not created |
| Models.AddValues | internal/handlers/proxy_handler.go:103-105 | the inner loop appends a name's values, in order, after the values already there; no values leaves the header unchanged |
| ProxyHandler.FallbackPath | internal/handlers/proxy_handler.go:47-48 | a fallback path is the request path minus one prefix, with "/" put back |
| ProxyHandler.FirstHit | internal/handlers/proxy_handler.go:45-53 | the result is the first prefix, in order, whose stripped path has a route |
| ProxyHandler.Resolve | internal/handlers/proxy_handler.go:42-54 | the exact path wins; otherwise the first fallback hit wins; nothing resolves exactly when neither has a route |
| ProxyHandler.PrefixesExclusive | internal/handlers/proxy_handler.go:45-47 | at most one version prefix applies to any path |
| ProxyHandler.ClientIPIsHead | internal/handlers/proxy_handler.go:131 | the recorded IP is the first piece of the remote address split at its first ':' |
| ProxyHandler.ClientIP | internal/handlers/proxy_handler.go:131 | the recorded IP contains no ':' and is a prefix of the remote address, ending at its end or at its first ':' |
| ProxyHandler.ClientIPOfHostPort | internal/handlers/proxy_handler.go:131 | for host:port with a colon-free host the IP is the host |
| ProxyHandler.ClientIPv6Loopback | internal/handlers/proxy_handler.go:131 | for "[::1]:8080" the recorded IP is "[" |
| ProxyHandler.EventFor | internal/handlers/proxy_handler.go:115-132 | the event carries route, status, cache flag, time, latency and IP; with no key it has no key id and an empty user |
| ProxyHandler.OnlyGetOkStored | internal/handlers/proxy_handler.go:62-100 | serving a request changes the cache only for a GET with an enabled rule, a reachable cache, a non-empty backend list and a 200 answer from the backend |
| ProxyHandler.HitResponse | internal/handlers/proxy_handler.go:68-71 | a cache hit answers 200 with the cached body, Content-Type application/json and X-Cache HIT |
| ProxyHandler.MissResponse | internal/handlers/proxy_handler.go:102-110 | a forwarded answer keeps the upstream status and body, adds every upstream header value and sets X-Cache MISS |
| ProxyHandler.TrackEvent | internal/handlers/proxy_handler.go:115-135 | one event is offered to the analytics queue and nothing else in it changes |
| ProxyHandler.Forwarded | internal/handlers/proxy_handler.go:77-110 | no backend gives 502 with nothing changed; otherwise the counters advance as `CountersAfter` says; a transport error gives 502 with the cache unchanged; an answer reaches the client as `MissResponse`; an eligible 200 with a reachable cache is stored under the request key with the rule's TTL, and the cache changes in no other way |
| ProxyHandler.Served | internal/handlers/proxy_handler.go:62-112 | the cache answers exactly for a GET with an enabled rule and a live cached value, and then the response is `HitResponse` of the cached value with counters and cache unchanged; in every other case, cache errors included, the request is forwarded as `Forwarded` says |
| ProxyHandler.MissThenHit | internal/handlers/proxy_handler.go:62-100 | a 200 stored on a miss answers the next identical GET from the cache until its TTL runs out: `HitResponse` of the stored body, with counters and cache unchanged |
| ProxyHandler.ForwardToBackend | internal/handlers/proxy_handler.go:77-110 | the response, the new round-robin counters and the new cache entries are exactly those `Forwarded` gives for the state before the call |
| ProxyHandler.ServeRoute | internal/handlers/proxy_handler.go:62-112 | the key is built from the request path, verb and body; the new state is the one `Served` gives for the cache lookup before the call, and exactly one event is offered, carrying the client's status and whether the cache answered |
| ProxyHandler.Forward | internal/handlers/proxy_handler.go:38-113 | an unresolved path gives 404, with no cache or counter change and one event without a route; a resolved route is served as `ServeRoute` says |
| Analytics.ToRow | internal/analytics/analytics.go:68-74 | a row holds every column of the event except the user id |
| Analytics.Written | internal/analytics/analytics.go:77-86 | a batch keeps every row when no INSERT fails and none when one fails, since the batch is one implicit transaction |
| Analytics.NoFailureKeepsAll | internal/analytics/analytics.go:61-86 | without failures the table holds exactly the rows of all flushed events, in flush order |
| Analytics.KeptBounded | internal/analytics/analytics.go:77-86 | the table never holds more rows than events were flushed |
| Analytics.Offer | internal/analytics/analytics.go:25-31 | a full queue drops the event; otherwise the event joins the end |
| Analytics.Analytics.constructor | internal/analytics/analytics.go:18-23 | the queue, accumulation and table start empty |
| Analytics.Analytics.TrackRequest | internal/analytics/analytics.go:25-31 | the queue becomes `Offer` of the event, and the queue never exceeds 1000 |
| Analytics.Analytics.FlushEvents | internal/analytics/analytics.go:61-86 | an empty list does nothing; otherwise the batch is logged and the table gains `Written` of it: all of its rows, or none after a failure |
| Analytics.Analytics.Receive | internal/analytics/analytics.go:45-50 | the oldest queued event joins the accumulation; at 100 the 100 events are flushed in order and cleared, so the accumulation stays below 100 |
| Analytics.Analytics.Tick | internal/analytics/analytics.go:52-56 | a non-empty accumulation is flushed and cleared; an empty one is left alone |
| Analytics.Analytics.Shutdown | internal/analytics/analytics.go:41-43 | the accumulation is flushed once and the loop stops; queued events are not flushed |
| Analytics.Analytics.Step | internal/analytics/analytics.go:39-58 | the new queue, accumulation and flushes are `Next` of the old ones for the trigger; the accepted events grow by exactly `Admitted`; the loop stops exactly on shutdown |
| Analytics.Analytics.Start | internal/analytics/analytics.go:33-59 | the triggers run in order up to and including the first shutdown, and the final state is `Run` of them; the accepted events grow by exactly the admitted tracked events; nothing flushed or written is taken back |
| Analytics.NextAccepted | internal/analytics/analytics.go:25-58 | one trigger adds to the accepted events exactly the tracked event that found room, loses none, and takes back no flush or written row |
| Analytics.FlushedAccepted | internal/analytics/analytics.go:41-56 | flushing and clearing the accumulation keeps every accepted event and only extends the flushes and the table |
| Analytics.RunAccepted | internal/analytics/analytics.go:33-59 | after any number of triggers the accepted events are the earlier ones followed by the admitted tracked events, in order |
| Analytics.RunKeeps | internal/analytics/analytics.go:33-59 | after any number of triggers the earlier flushed events and written rows are still a prefix |
| Analytics.AdmittedAreTracked | internal/analytics/analytics.go:25-31 | every admitted event is the event of a Track trigger among those run |
| Analytics.NoDoneExtend | internal/analytics/analytics.go:39-43 | a prefix of the script without shutdown extends by a trigger that is not a shutdown |
| Config.GetEnv | internal/config/config.go:69-74 | a set, non-empty variable wins; otherwise the default is used |
| Config.CleanOrigin | internal/config/config.go:33-35 | an entry is trimmed of spaces and loses at most one trailing "/" |
| Config.ParsedOrigins | internal/config/config.go:31-39 | every origin kept is non-empty, and there are never more origins than comma-separated entries |
| Config.ParsedCleanEntries | internal/config/config.go:31-39 | entries that are already clean and non-empty pass through unchanged |
| Config.ParseOrigins | internal/config/config.go:31-39 | the loop builds exactly the cleaned, non-empty entries, in order |
| Config.FindLocalhost | internal/config/config.go:47-53 | the search stops with true exactly when some origin contains "localhost" |
| Config.OriginsNeverEmpty | internal/config/config.go:40-57 | the origin list is never empty |
| Config.LocalDevAppendedIff | internal/config/config.go:46-57 | http://localhost:3000 is appended once, at the end, exactly when no origin mentions localhost and the joined list does not mention vercel.app |
| Config.FrontendFallback | internal/config/config.go:40-44 | without ALLOWED_ORIGINS the list is FRONTEND_URL, or http://localhost:3000, minus one trailing "/" |
| Config.Load | internal/config/config.go:23-67 | the loops build exactly the specified origin list; the port defaults to "8080" and the other settings to "" |
| Encoding.RawRoundTrip | internal/services/apikey_service.go:107 | decoding the unpadded base64url encoding of any bytes gives those bytes back |
| Encoding.EncodeRawLength | internal/services/apikey_service.go:107 | the unpadded encoding has four characters per whole three-byte group and one more than the bytes of a final partial group, so 32 random bytes give 43 characters |
| Encoding.HexEncodeInjective | internal/services/cache_service.go:55 | different digests give different hex strings |

## Left out

- Database and Redis I/O are replaced by in-memory tables and maps. For the tables, only "not found" errors are modelled; connection and scan errors are not. For Redis, one `available` flag stands for every store failure.
- Row creation time is represented by insertion order, so "newest first" is the reverse of insertion. The routes table's unique constraint on path is not modelled; `GetByPath` returns the first match.
- SHA-256 and the random source are inputs, because they are cryptographic primitives. RSA keys are reduced to the modulus as a number and the exponent.
- `jwt.Parse` is two inputs: a parser giving the algorithm family, the kid and the sub claim, and a verifier for signature and registered claims.
- ClerkAuth.ClerkAuth.Middleware: the "invalid claims" branch is not modelled. `jwt.Parse` always produces map claims, so that branch cannot be taken.
- The HTTP client, `http.NewRequestWithContext`, the per-route timeout and context cancellation are one transport function. A request-construction error counts as a transport error.
- ProxyService.ProxyService.BuildHeader: header names are not re-canonicalised the way `Header.Add` canonicalises them. Incoming names are assumed canonical already.
- CacheService.GlobMatch: Redis character classes (`[...]`) in patterns are not interpreted. `*`, `?` and the backslash escape are.
- CacheService.CacheStore.Delete: SCAN's cursor paging and iteration errors are not modelled. Keys are visited in an unspecified order.
- ProxyService.OutboundFor: the URL is built from the corrected `BackendPath`, not the as-written trim (see "## Findings"). The two differ only when the route path is a proper prefix of the request path not followed by "/".
- ProxyService.ProxyService.Forward: sends to the corrected `BackendPath` through `OutboundFor`, so for the inputs in "## Findings" the model's URL is not the one the source builds.
- ProxyHandler.ForwardToBackend: inherits the corrected backend path from `Forwarded` and `OutboundFor`. Everything else it promises matches the source.
- ProxyHandler.ServeRoute: inherits the corrected backend path on a cache miss, through `Served` and `Forwarded`.
- ProxyHandler.Forward: inherits the corrected backend path for resolved routes, through `ServeRoute`.
- A failed INSERT rolls back its whole batch, because pgx sends a batch without transaction statements as one implicit transaction. The model relies on that documented behaviour and does not model a database that commits part of a pipeline.
- The analytics goroutine, its channel and its ticker are modelled sequentially. The trigger script fixes the order in which the select cases fire, and the model cannot express blocking.
- The hourly JWKS refresh goroutine and all locking are left out. They are concurrency, which this sequential model does not express.
- The data race on the lazily created round-robin counters is left out. That race needs concurrent callers, which this model does not have.
- `GetMetrics` and `GetRealtimeMetrics` are left out. They are SQL aggregates over floating point.
- `NewPostgresPool`, `NewRedisClient` and the process wiring are left out, because they are I/O plumbing.
- Reading the request and response bodies is assumed to succeed. The source ignores those errors.
- Time is whole seconds, and the latency is measured outside the model.

## Findings

| source | as written | input that shows it | evidently intended | confidence | as-written member | corrected member |
|---|---|---|---|---|---|---|
| internal/services/proxy_service.go:40-46 | the route path is stripped from the request path whenever it is a string prefix, even inside a path segment | route "/a" resolved through the "/api/" fallback for request "/api/a": the backend path becomes "pi/a" and the URL "http://backendpi/a" | strip the route path only when it is the whole request path or is followed by "/"; a fallback-resolved path is otherwise forwarded unchanged | high; not executed | ProxyService.TrimmedPathAsWritten, ProxyService.TrimCutsInsideSegment | ProxyService.BackendPath |
