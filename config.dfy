/** Process configuration (internal/config/config.go): settings read from the
    environment, which is passed in as a map, and the CORS origin list built
    from ALLOWED_ORIGINS or FRONTEND_URL. */
module Config {
  import opened Strings

  type Env = map<string, string>

  const DefaultFrontendURL := "http://localhost:3000"
  const LocalDevOrigin := "http://localhost:3000"
  const DefaultPort := "8080"

  datatype Config = Config(
    port: string,
    databaseURL: string,
    redisURL: string,
    redisToken: string,
    allowOrigins: seq<string>,
    clerkJWKSURL: string)

  /** getEnv: the variable when it is set to something non-empty, the
      default otherwise (an empty value counts as unset). */
  function GetEnv(env: Env, key: string, defaultValue: string): (v: string)
    ensures key in env && env[key] != "" ==> v == env[key]
    ensures !(key in env && env[key] != "") ==> v == defaultValue
    ensures v == "" ==> defaultValue == ""
  {
    if key in env && env[key] != "" then env[key] else defaultValue
  }

  /** One ALLOWED_ORIGINS entry cleaned: spaces trimmed, then one trailing
      slash removed. */
  function CleanOrigin(entry: string): (o: string)
    ensures o == TrimSpace(entry) || o + "/" == TrimSpace(entry)
  {
    TrimSuffix(TrimSpace(entry), "/")
  }

  /** The cleaned entries that are not empty, in their order. */
  function ParsedOrigins(entries: seq<string>): (os: seq<string>)
    ensures |os| <= |entries|
    ensures forall i :: 0 <= i < |os| ==> os[i] != ""
  {
    if entries == [] then []
    else
      var before := ParsedOrigins(entries[..|entries| - 1]);
      var o := CleanOrigin(entries[|entries| - 1]);
      if o != "" then before + [o] else before
  }

  /** One more entry: a clean, non-empty entry is appended as it is. */
  lemma ParsedOriginsSnoc(init: seq<string>, last: string)
    requires CleanOrigin(last) == last != ""
    ensures ParsedOrigins(init + [last]) == ParsedOrigins(init) + [last]
  {
    assert (init + [last])[..|init|] == init;
  }

  /** Entries that are clean already and non-empty pass through unchanged. */
  lemma {:induction false} ParsedCleanEntries(entries: seq<string>)
    requires forall i :: 0 <= i < |entries| ==> CleanOrigin(entries[i]) == entries[i] != ""
    ensures ParsedOrigins(entries) == entries
  {
    if entries != [] {
      var init, last := entries[..|entries| - 1], entries[|entries| - 1];
      assert init + [last] == entries;
      ParsedCleanEntries(init);
      ParsedOriginsSnoc(init, last);
    }
  }

  /** The origins before the local-development one is considered: the
      parsed ALLOWED_ORIGINS list when that is set, else FRONTEND_URL (or
      its default) minus one trailing slash. */
  function BaseOrigins(env: Env): (os: seq<string>)
  {
    var allowed := GetEnv(env, "ALLOWED_ORIGINS", "");
    if allowed != "" then ParsedOrigins(Split(allowed, ','))
    else [TrimSuffix(GetEnv(env, "FRONTEND_URL", DefaultFrontendURL), "/")]
  }

  predicate HasLocalhost(origins: seq<string>) {
    exists i :: 0 <= i < |origins| && Contains(origins[i], "localhost")
  }

  /** The local-development origin is added when no origin mentions
      localhost and the comma-joined list does not mention vercel.app. */
  predicate NeedsLocalDev(origins: seq<string>) {
    !HasLocalhost(origins) && !Contains(Join(origins, ","), "vercel.app")
  }

  function AllowedOrigins(env: Env): seq<string>
  {
    var base := BaseOrigins(env);
    if NeedsLocalDev(base) then base + [LocalDevOrigin] else base
  }

  lemma {:induction false} NothingContainedInEmpty(sub: string)
    requires sub != ""
    ensures !Contains("", sub)
  {
  }

  /** The origin list is never empty: with no usable entry the
      local-development origin is added. */
  lemma OriginsNeverEmpty(env: Env)
    ensures |AllowedOrigins(env)| >= 1
  {
    var base := BaseOrigins(env);
    if base == [] {
      NothingContainedInEmpty("vercel.app");
      assert Join(base, ",") == "";
      assert !HasLocalhost(base);
    }
  }

  /** The local-development origin is appended once, at the end, exactly
      when the base list calls for it; otherwise the base list is kept. */
  lemma LocalDevAppendedIff(env: Env)
    ensures NeedsLocalDev(BaseOrigins(env)) <==> AllowedOrigins(env) == BaseOrigins(env) + [LocalDevOrigin]
    ensures !NeedsLocalDev(BaseOrigins(env)) <==> AllowedOrigins(env) == BaseOrigins(env)
  {
    var base := BaseOrigins(env);
    assert |base + [LocalDevOrigin]| != |base|;
  }

  /** With ALLOWED_ORIGINS unset, FRONTEND_URL alone decides the base list. */
  lemma FrontendFallback(env: Env)
    requires "ALLOWED_ORIGINS" !in env || env["ALLOWED_ORIGINS"] == ""
    ensures BaseOrigins(env) == [TrimSuffix(GetEnv(env, "FRONTEND_URL", DefaultFrontendURL), "/")]
    ensures "FRONTEND_URL" !in env ==> BaseOrigins(env) == [DefaultFrontendURL]
  {
    assert !HasSuffix(DefaultFrontendURL, "/");
  }

  /** Load's parsing loop over the comma-separated entries. */
  method ParseOrigins(entries: seq<string>) returns (origins: seq<string>)
    ensures origins == ParsedOrigins(entries)
  {
    origins := [];
    var i := 0;
    while i < |entries|
      invariant 0 <= i <= |entries|
      invariant origins == ParsedOrigins(entries[..i])
    {
      assert entries[..i + 1][..i] == entries[..i];
      var origin := TrimSpace(entries[i]);
      origin := TrimSuffix(origin, "/");
      if origin != "" {
        origins := origins + [origin];
      }
      i := i + 1;
    }
    assert entries[..i] == entries;
  }

  /** Load's search loop: does any origin mention localhost? */
  method FindLocalhost(origins: seq<string>) returns (found: bool)
    ensures found <==> HasLocalhost(origins)
  {
    found := false;
    var j := 0;
    while j < |origins|
      invariant 0 <= j <= |origins|
      invariant found <==> exists k :: 0 <= k < j && Contains(origins[k], "localhost")
      invariant found ==> j > 0
    {
      if Contains(origins[j], "localhost") {
        found := true;
        break;
      }
      j := j + 1;
    }
  }

  /** Load: the origins are built entry by entry, a search loop decides
      whether localhost is present, and the other settings come from the
      environment with their defaults. */
  method Load(env: Env) returns (c: Config)
    ensures c.allowOrigins == AllowedOrigins(env)
    ensures c.port == GetEnv(env, "PORT", DefaultPort)
    ensures c.databaseURL == GetEnv(env, "DATABASE_URL", "")
    ensures c.redisURL == GetEnv(env, "REDIS_URL", "")
    ensures c.redisToken == GetEnv(env, "REDIS_TOKEN", "")
    ensures c.clerkJWKSURL == GetEnv(env, "CLERK_JWKS_URL", "")
  {
    var frontendURL := GetEnv(env, "FRONTEND_URL", DefaultFrontendURL);
    var allowedOriginsEnv := GetEnv(env, "ALLOWED_ORIGINS", "");
    var allowedOrigins: seq<string>;
    if allowedOriginsEnv != "" {
      allowedOrigins := ParseOrigins(Split(allowedOriginsEnv, ','));
    } else {
      frontendURL := TrimSuffix(frontendURL, "/");
      allowedOrigins := [frontendURL];
    }
    assert allowedOrigins == BaseOrigins(env);
    var hasLocalhost := FindLocalhost(allowedOrigins);
    if !hasLocalhost && !Contains(Join(allowedOrigins, ","), "vercel.app") {
      allowedOrigins := allowedOrigins + [LocalDevOrigin];
    }
    c := Config(
      GetEnv(env, "PORT", DefaultPort),
      GetEnv(env, "DATABASE_URL", ""),
      GetEnv(env, "REDIS_URL", ""),
      GetEnv(env, "REDIS_TOKEN", ""),
      allowedOrigins,
      GetEnv(env, "CLERK_JWKS_URL", ""));
  }
}
