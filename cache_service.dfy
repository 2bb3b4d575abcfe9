/** The response cache (internal/services/cache_service.go) over a Redis-like
    key/value store with per-key expiry. The store is a map; time is an
    explicit clock in seconds; whether the store answers at all is the
    `available` flag. SHA-256 (FIPS 180-4) is an oracle, a constant of the
    store given when it is built. */
module CacheService {
  import opened Wrappers
  import opened Encoding
  import Strings

  type Digest = s: seq<byte> | |s| == 32 witness seq(32, _ => 0)

  const KeyPrefix := "cache:"
  /** The pattern the admin Invalidate endpoint uses when none is given. */
  const DefaultInvalidatePattern := "cache:*"

  /** A stored value and the second at which it expires (None: never). */
  datatype Entry = Entry(value: string, expiresAt: Option<nat>)

  predicate Live(e: Entry, now: nat) {
    e.expiresAt.None? || now < e.expiresAt.value
  }

  /** Redis SET with a TTL: a positive TTL expires `ttl` seconds from now; a
      zero or negative one is sent as no expiry at all, so the value stays. */
  function ExpiryFor(ttlSeconds: int, now: nat): (r: Option<nat>)
    ensures ttlSeconds > 0 <==> r.Some?
    ensures r.Some? ==> r.value == now + ttlSeconds
  {
    if ttlSeconds > 0 then Some(now + ttlSeconds) else None
  }

  // ---- Redis glob patterns, as SCAN's MATCH uses them ----

  /** `*` matches any run of characters, `?` any one character, a backslash
      makes the next character literal, anything else matches itself. */
  predicate GlobMatch(p: string, s: string)
    ensures Plain(p) ==> (GlobMatch(p, s) <==> s == p)
    decreases |p| + |s|
  {
    if p == [] then s == []
    else if p[0] == '*' then GlobMatch(p[1..], s) || (s != [] && GlobMatch(p, s[1..]))
    else if p[0] == '?' then s != [] && GlobMatch(p[1..], s[1..])
    else if p[0] == '\\' && |p| >= 2 then s != [] && s[0] == p[1] && GlobMatch(p[2..], s[1..])
    else s != [] && s[0] == p[0] && GlobMatch(p[1..], s[1..])
  }

  lemma {:induction false} StarMatchesAll(s: string)
    ensures GlobMatch("*", s)
  {
    if s != [] {
      StarMatchesAll(s[1..]);
    }
  }

  /** A pattern with no special character. */
  predicate Plain(p: string) {
    forall i :: 0 <= i < |p| ==> p[i] != '*' && p[i] != '?' && p[i] != '\\'
  }

  /** A literal prefix followed by `*` matches exactly the keys with that prefix. */
  lemma {:induction false} PrefixStarMatch(p: string, s: string)
    requires Plain(p)
    ensures GlobMatch(p + "*", s) <==> Strings.HasPrefix(s, p)
  {
    if p == [] {
      assert p + "*" == "*";
      StarMatchesAll(s);
    } else {
      assert (p + "*")[0] == p[0] && (p + "*")[1..] == p[1..] + "*";
      if s != [] {
        PrefixStarMatch(p[1..], s[1..]);
        if Strings.HasPrefix(s, p) {
          assert s[1..][..|p| - 1] == s[..|p|][1..];
        }
        if Strings.HasPrefix(s[1..], p[1..]) && s[0] == p[0] {
          assert s[..|p|] == [s[0]] + s[1..][..|p| - 1];
        }
      }
    }
  }

  /** Invalidate's default: an empty pattern means every cache key. */
  function InvalidatePattern(pattern: string): (r: string)
    ensures pattern == "" ==> r == DefaultInvalidatePattern
    ensures pattern != "" ==> r == pattern
  {
    if pattern == "" then DefaultInvalidatePattern else pattern
  }

  // ---- the store as a value ----

  type Store = map<string, Entry>

  /** GET: a store failure is an error; an absent or expired key is a miss
      (Ok(None)), never an error; a live key gives its value. */
  function Lookup(entries: Store, available: bool, key: string, now: nat): (r: Result<Option<string>>)
    ensures !available <==> r.Err?
    ensures r.Ok? && r.value.Some? <==> available && key in entries && Live(entries[key], now)
    ensures r.Ok? && r.value.Some? ==> r.value.value == entries[key].value
  {
    if !available then Err("failed to get cache")
    else if key in entries && Live(entries[key], now) then Ok(Some(entries[key].value))
    else Ok(None)
  }

  function Stored(entries: Store, key: string, value: string, ttlSeconds: int, now: nat): Store
  {
    entries[key := Entry(value, ExpiryFor(ttlSeconds, now))]
  }

  /** What a completed Delete(pattern) leaves: exactly the non-matching keys. */
  function WithoutMatching(entries: Store, pattern: string): (r: Store)
    ensures forall k :: k in r <==> k in entries && !GlobMatch(pattern, k)
    ensures forall k :: k in r ==> r[k] == entries[k]
  {
    map k | k in entries && !GlobMatch(pattern, k) :: entries[k]
  }

  /** A value set with a TTL is what GET returns for that key until the TTL
      runs out (forever for a TTL that is not positive); other keys read as before. */
  lemma SetThenGet(entries: Store, key: string, value: string, ttlSeconds: int, now: nat, later: nat, other: string)
    requires now <= later && (ttlSeconds > 0 ==> later < now + ttlSeconds)
    requires other != key
    ensures Lookup(Stored(entries, key, value, ttlSeconds, now), true, key, later) == Ok(Some(value))
    ensures Lookup(Stored(entries, key, value, ttlSeconds, now), true, other, later) == Lookup(entries, true, other, later)
  {
  }

  /** After a TTL has run out the value is a miss again. */
  lemma ExpiredIsMiss(entries: Store, key: string, value: string, ttlSeconds: int, now: nat, later: nat)
    requires ttlSeconds > 0 && later >= now + ttlSeconds
    ensures Lookup(Stored(entries, key, value, ttlSeconds, now), true, key, later) == Ok(None)
  {
  }

  /** Invalidating with the default pattern leaves no key with the cache
      prefix, so every generated key misses afterwards; keys outside the
      namespace stay. */
  lemma InvalidateAllClearsCache(entries: Store, key: string, now: nat)
    ensures Strings.HasPrefix(key, KeyPrefix) ==>
      Lookup(WithoutMatching(entries, InvalidatePattern("")), true, key, now) == Ok(None)
    ensures !Strings.HasPrefix(key, KeyPrefix) ==>
      Lookup(WithoutMatching(entries, InvalidatePattern("")), true, key, now) == Lookup(entries, true, key, now)
  {
    assert KeyPrefix + "*" == DefaultInvalidatePattern;
    PrefixStarMatch(KeyPrefix, key);
  }

  class CacheStore {
    /** SHA-256 of the UTF-8 bytes of a string. */
    const sha256: string -> Digest
    var entries: Store
    var available: bool

    constructor (sha256: string -> Digest)
      ensures this.sha256 == sha256 && entries == map[] && available
    {
      this.sha256 := sha256;
      entries := map[];
      available := true;
    }

    /** GenerateKey: "cache:" and the lower-case hex SHA-256 of path+method+body. */
    function GenerateKey(path: string, verb: string, body: string): (key: string)
      ensures |key| == 70 && Strings.HasPrefix(key, KeyPrefix)
      ensures forall i :: 6 <= i < 70 ==> IsLowerHex(key[i])
      ensures key[6..] == HexEncode(sha256(path + verb + body))
    {
      KeyPrefix + HexEncode(sha256(path + verb + body))
    }

    /** Two requests share a key exactly when their concatenations hash the
        same; in particular equal concatenations always share it. */
    lemma SameKeyIffSameDigest(p1: string, m1: string, b1: string, p2: string, m2: string, b2: string)
      ensures GenerateKey(p1, m1, b1) == GenerateKey(p2, m2, b2)
        <==> sha256(p1 + m1 + b1) == sha256(p2 + m2 + b2)
    {
      var k1, k2 := GenerateKey(p1, m1, b1), GenerateKey(p2, m2, b2);
      if k1 == k2 {
        assert k1[6..] == k2[6..];
        HexEncodeInjective(sha256(p1 + m1 + b1), sha256(p2 + m2 + b2));
      }
    }

    function Get(key: string, now: nat): (r: Result<Option<string>>)
      reads this
      ensures r == Lookup(entries, available, key, now)
    {
      Lookup(entries, available, key, now)
    }

    /** SET key value EX ttl: a store failure is an error and changes nothing. */
    method Set(key: string, value: string, ttlSeconds: int, now: nat) returns (err: Option<string>)
      modifies this
      ensures available == old(available)
      ensures !available ==> err.Some? && entries == old(entries)
      ensures available ==> err.None? && entries == Stored(old(entries), key, value, ttlSeconds, now)
    {
      if !available {
        return Some("failed to set cache");
      }
      entries := Stored(entries, key, value, ttlSeconds, now);
      err := None;
    }

    /** SCAN the keys matching `pattern` and DEL them one at a time, in the
        store's order. A DEL that fails (one of `failing`) stops the loop
        with an error and leaves the keys not yet reached; otherwise exactly
        the matching keys are gone. Non-matching keys are never touched. */
    method Delete(pattern: string, failing: set<string>) returns (err: Option<string>)
      modifies this
      ensures available == old(available)
      ensures !available ==> err.Some? && entries == old(entries)
      ensures available && (forall k :: k in old(entries) && GlobMatch(pattern, k) ==> k !in failing)
        ==> err.None?
      ensures err.None? ==> entries == WithoutMatching(old(entries), pattern)
      ensures err.Some? ==> forall k :: k in entries ==> k in old(entries) && entries[k] == old(entries)[k]
      ensures forall k :: k in old(entries) && !GlobMatch(pattern, k) ==> k in entries
    {
      if !available {
        return Some("failed to iterate cache keys");
      }
      var pending := set k | k in entries && GlobMatch(pattern, k);
      while pending != {}
        invariant available == old(available)
        invariant pending <= old(entries).Keys
        invariant forall k :: k in pending ==> GlobMatch(pattern, k)
        invariant forall k :: k in entries <==> k in old(entries) && (!GlobMatch(pattern, k) || k in pending)
        invariant forall k :: k in entries ==> entries[k] == old(entries)[k]
        decreases pending
      {
        var k :| k in pending;
        if k in failing {
          return Some("failed to delete cache key");
        }
        entries := map x | x in entries && x != k :: entries[x];
        pending := pending - {k};
      }
      err := None;
    }
  }
}
