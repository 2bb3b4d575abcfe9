/** JWT authentication against a JWKS key set (internal/middleware/clerk_auth.go).
    The key cache is a map from key id to RSA public key; the JWKS document
    fetched over HTTP is a parameter (the decoded key list, or the fetch or
    decode error). Token parsing and signature verification (jwt.Parse) are
    oracles; the checks this middleware adds around them are modelled. */
module ClerkAuth {
  import opened Wrappers
  import opened Models
  import opened Encoding
  import Auth
  import opened Arith

  const DefaultJWKSURL := "https://clerk.your-domain.com/.well-known/jwks.json"
  const InvalidTokenMsg := "{\"error\":\"invalid token\"}"
  const MissingUserMsg := "{\"error\":\"user ID not found in token\"}"

  /** One entry of the JWKS "keys" array (section 4 of RFC 7517). */
  datatype JWK = JWK(kid: string, kty: string, use: string, n: string, e: string)

  /** rsa.PublicKey: the modulus as a number, the exponent as a Go int. */
  datatype PublicKey = PublicKey(n: nat, e: int)

  const U64: nat := 0x1_0000_0000_0000_0000
  const I64Bound: nat := 0x8000_0000_0000_0000

  /** A 64-bit pattern read as a two's-complement Go int. */
  function ToInt64(bits: nat): (i: int)
    requires bits < U64
    ensures -(I64Bound as int) <= i < I64Bound
    ensures i % U64 == bits
  {
    if bits < I64Bound then bits else bits - U64
  }

  /** The exponent `e = e<<8 | int(b)` folds out of its bytes: the low 64
      bits of the big-endian value, as a signed int. */
  function Exponent(bytes: seq<byte>): int
  {
    ToInt64(BigEndian(bytes) % U64)
  }

  /** Bytes below 256^k make a number below 256^k. */
  function Pow256(k: nat): (p: nat)
    ensures p >= 1
  {
    if k == 0 then 1 else 256 * Pow256(k - 1)
  }

  lemma {:induction false} BigEndianBound(bytes: seq<byte>)
    ensures BigEndian(bytes) < Pow256(|bytes|)
  {
    if bytes != [] {
      var init := bytes[..|bytes| - 1];
      BigEndianBound(init);
      assert BigEndian(bytes) == BigEndian(init) * 256 + bytes[|bytes| - 1];
      assert BigEndian(init) + 1 <= Pow256(|init|);
      assert (BigEndian(init) + 1) * 256 <= Pow256(|init|) * 256;
    }
  }

  lemma Pow256Seven()
    ensures Pow256(7) == 0x100_0000_0000_0000
  {
  }

  lemma {:induction false} Pow256Mono(j: nat, k: nat)
    requires j <= k
    ensures Pow256(j) <= Pow256(k)
  {
    if j < k {
      Pow256Mono(j, k - 1);
    }
  }

  /** Up to seven bytes the exponent is the plain big-endian number; the
      usual AQAB (bytes 1, 0, 1) gives 65537 and no bytes give 0. */
  lemma ExponentSmall(bytes: seq<byte>)
    requires |bytes| <= 7
    ensures Exponent(bytes) == BigEndian(bytes)
    ensures Exponent([1, 0, 1]) == 65537 && Exponent([]) == 0
  {
    BigEndianBound(bytes);
    Pow256Mono(|bytes|, 7);
    Pow256Seven();
    assert BigEndian([1, 0, 1]) == 65537 by {
      assert [1, 0, 1][..2] == [1, 0];
      assert [1, 0][..1] == [1];
      assert [1][..0] == [];
    }
  }

  /** Shifting in one more byte commutes with keeping the low 64 bits. */
  lemma ShiftInLow64(x: nat, b: byte)
    ensures ((x % U64) * 256 + b) % U64 == (x * 256 + b) % U64
  {
    var q, r := x / U64, x % U64;
    assert x == q * U64 + r;
    assert x * 256 + b == (q * 256) * U64 + (r * 256 + b);
    ModAddMultiple(q * 256, r * 256 + b, U64);
  }

  /** The exponent loop over a 64-bit register: each byte shifts the
      register left by 8 (dropping the high bits) and fills the low byte. */
  method FoldExponent(bytes: seq<byte>) returns (e: int)
    ensures e == Exponent(bytes)
  {
    var bits: nat := 0;
    var i := 0;
    while i < |bytes|
      invariant 0 <= i <= |bytes|
      invariant bits == BigEndian(bytes[..i]) % U64
    {
      assert bytes[..i + 1][..i] == bytes[..i];
      ShiftInLow64(BigEndian(bytes[..i]), bytes[i]);
      bits := (bits * 256 + bytes[i]) % U64;
      i := i + 1;
    }
    assert bytes[..i] == bytes;
    e := ToInt64(bits);
  }

  /** The key a JWK installs: only an RSA key whose n and e both decode as
      unpadded base64url gives one. */
  function KeyOf(jwk: JWK): (r: Option<PublicKey>)
    ensures r.Some? <==> jwk.kty == "RSA" && DecodeRaw(jwk.n).Some? && DecodeRaw(jwk.e).Some?
    ensures r.Some? ==> r.value == PublicKey(BigEndian(DecodeRaw(jwk.n).value), Exponent(DecodeRaw(jwk.e).value))
  {
    if jwk.kty != "RSA" then None
    else match DecodeRaw(jwk.n)
      case None => None
      case Some(nBytes) =>
        match DecodeRaw(jwk.e)
        case None => None
        case Some(eBytes) => Some(PublicKey(BigEndian(nBytes), Exponent(eBytes)))
  }

  /** The key map after installing `jwks` in order: each usable key is
      written under its kid, replacing what was there. */
  function Installed(keys: map<string, PublicKey>, jwks: seq<JWK>): map<string, PublicKey>
  {
    if jwks == [] then keys
    else
      var last := jwks[|jwks| - 1];
      var before := Installed(keys, jwks[..|jwks| - 1]);
      match KeyOf(last)
      case None => before
      case Some(k) => before[last.kid := k]
  }

  /** Installing one more key extends the fold by one step. */
  lemma InstalledStep(keys: map<string, PublicKey>, jwks: seq<JWK>, i: nat)
    requires i < |jwks|
    ensures KeyOf(jwks[i]).None? ==> Installed(keys, jwks[..i + 1]) == Installed(keys, jwks[..i])
    ensures KeyOf(jwks[i]).Some? ==>
      Installed(keys, jwks[..i + 1]) == Installed(keys, jwks[..i])[jwks[i].kid := KeyOf(jwks[i]).value]
  {
    assert jwks[..i + 1][..i] == jwks[..i];
  }

  predicate Usable(jwk: JWK) {
    KeyOf(jwk).Some?
  }

  /** Some key in `jwks` that `usable` accepts carries `kid`. */
  predicate Carries(jwks: seq<JWK>, kid: string, usable: JWK -> bool) {
    exists i :: 0 <= i < |jwks| && jwks[i].kid == kid && usable(jwks[i])
  }

  /** Some usable key in `jwks` carries `kid`. */
  predicate Names(jwks: seq<JWK>, kid: string) {
    Carries(jwks, kid, Usable)
  }

  lemma CarriesSnoc(jwks: seq<JWK>, kid: string, usable: JWK -> bool)
    requires jwks != []
    ensures Carries(jwks, kid, usable) <==>
      Carries(jwks[..|jwks| - 1], kid, usable) || (jwks[|jwks| - 1].kid == kid && usable(jwks[|jwks| - 1]))
  {
    var init := jwks[..|jwks| - 1];
    if Carries(init, kid, usable) {
      var i :| 0 <= i < |init| && init[i].kid == kid && usable(init[i]);
      assert jwks[i] == init[i];
    }
    if Carries(jwks, kid, usable) {
      var i :| 0 <= i < |jwks| && jwks[i].kid == kid && usable(jwks[i]);
      if i < |init| {
        assert init[i] == jwks[i];
      }
    }
  }

  /** A kid is in the map afterwards exactly when it was before or some
      usable key carries it. */
  lemma {:induction false} InstalledKeys(keys: map<string, PublicKey>, jwks: seq<JWK>, kid: string)
    ensures kid in Installed(keys, jwks) <==> kid in keys || Names(jwks, kid)
  {
    if jwks != [] {
      InstalledKeys(keys, jwks[..|jwks| - 1], kid);
      CarriesSnoc(jwks, kid, Usable);
    }
  }

  /** Installing never removes a kid. */
  lemma InstalledGrows(keys: map<string, PublicKey>, jwks: seq<JWK>)
    ensures keys.Keys <= Installed(keys, jwks).Keys
  {
    forall kid | kid in keys
      ensures kid in Installed(keys, jwks)
    {
      InstalledKeys(keys, jwks, kid);
    }
  }

  /** A kid that no usable key carries keeps its key. */
  lemma {:induction false} UnnamedKeysKept(keys: map<string, PublicKey>, jwks: seq<JWK>, kid: string)
    requires kid in keys && !Names(jwks, kid)
    ensures kid in Installed(keys, jwks) && Installed(keys, jwks)[kid] == keys[kid]
  {
    if jwks != [] {
      CarriesSnoc(jwks, kid, Usable);
      UnnamedKeysKept(keys, jwks[..|jwks| - 1], kid);
    }
  }

  /** The last usable key for a kid is the one that stays. */
  lemma LastUsableWins(keys: map<string, PublicKey>, jwks: seq<JWK>, jwk: JWK)
    requires KeyOf(jwk).Some?
    ensures jwk.kid in Installed(keys, jwks + [jwk])
    ensures Installed(keys, jwks + [jwk])[jwk.kid] == KeyOf(jwk).value
  {
    assert (jwks + [jwk])[..|jwks|] == jwks;
  }

  /** The middleware's view of a parsed JWT: whether its algorithm is an RSA
      one, its "kid" header when that is a string, and its "sub" claim when
      that is a string. */
  datatype Token = Token(rsa: bool, kid: Option<string>, sub: Option<string>)

  datatype Outcome = Rejected(response: Response) | Authenticated(userId: string)

  /** The key map after looking up `kid`: unchanged on a hit; on a miss the
      keys are refetched once, and a failed refetch changes nothing. */
  function KeysAfterLookup(keys: map<string, PublicKey>, kid: string, refetch: Result<seq<JWK>>)
    : (r: map<string, PublicKey>)
    ensures kid in keys || refetch.Err? ==> r == keys
    ensures keys.Keys <= r.Keys
    ensures kid in r <==> kid in keys || (refetch.Ok? && Names(refetch.value, kid))
  {
    if kid in keys || refetch.Err? then keys
    else
      InstalledKeys(keys, refetch.value, kid);
      InstalledGrows(keys, refetch.value);
      Installed(keys, refetch.value)
  }

  /** What the key function passed to jwt.Parse demands before a key is
      looked up: the token parses, its method is RSA and it has a string kid. */
  predicate WellFormed(t: Option<Token>) {
    t.Some? && t.value.rsa && t.value.kid.Some?
  }

  class ClerkAuth {
    var publicKeys: map<string, PublicKey>
    var jwksURL: string

    /** NewClerkAuth: an empty URL means the fixed default one; the key map
        starts empty (the hourly refresh goroutine is not modelled). */
    constructor (url: string)
      ensures jwksURL == (if url == "" then DefaultJWKSURL else url)
      ensures publicKeys == map[]
    {
      jwksURL := if url == "" then DefaultJWKSURL else url;
      publicKeys := map[];
    }

    /** fetchKeys: a failed fetch or decode changes nothing and is returned;
        otherwise each usable key is installed in order and every other key
        is skipped without stopping the loop. */
    method FetchKeys(fetched: Result<seq<JWK>>) returns (err: Option<string>)
      modifies this
      ensures jwksURL == old(jwksURL)
      ensures fetched.Err? ==> err == Some(fetched.msg) && publicKeys == old(publicKeys)
      ensures fetched.Ok? ==> err.None? && publicKeys == Installed(old(publicKeys), fetched.value)
      ensures old(publicKeys).Keys <= publicKeys.Keys
    {
      if fetched.Err? {
        return Some(fetched.msg);
      }
      var jwks := fetched.value;
      var i := 0;
      while i < |jwks|
        invariant 0 <= i <= |jwks|
        invariant publicKeys == Installed(old(publicKeys), jwks[..i])
        invariant old(publicKeys).Keys <= publicKeys.Keys
        invariant jwksURL == old(jwksURL)
      {
        var key := jwks[i];
        InstalledStep(old(publicKeys), jwks, i);
        if key.kty != "RSA" {
          i := i + 1;
          continue;
        }
        var nBytes := DecodeRaw(key.n);
        if nBytes.None? {
          i := i + 1;
          continue;
        }
        var eBytes := DecodeRaw(key.e);
        if eBytes.None? {
          i := i + 1;
          continue;
        }
        var e := FoldExponent(eBytes.value);
        publicKeys := publicKeys[key.kid := PublicKey(BigEndian(nBytes.value), e)];
        i := i + 1;
      }
      assert jwks[..i] == jwks;
      err := None;
    }

    /** getPublicKey: a cached kid is returned without fetching; on a miss
        the keys are fetched exactly once (its error ignored) and the kid is
        looked up again, an error if it is still absent. */
    method GetPublicKey(kid: string, refetch: Result<seq<JWK>>) returns (r: Result<PublicKey>)
      modifies this
      ensures jwksURL == old(jwksURL)
      ensures kid in old(publicKeys) ==> r == Ok(old(publicKeys)[kid]) && publicKeys == old(publicKeys)
      ensures publicKeys == KeysAfterLookup(old(publicKeys), kid, refetch)
      ensures r.Ok? <==> kid in publicKeys
      ensures r.Ok? ==> r.value == publicKeys[kid]
    {
      if kid in publicKeys {
        return Ok(publicKeys[kid]);
      }
      var _ := FetchKeys(refetch);
      if kid in publicKeys {
        r := Ok(publicKeys[kid]);
      } else {
        r := Err("public key not found");
      }
    }

    /** Middleware: the Authorization header is checked exactly as the
        API-key middleware checks it; then the token must parse, use an RSA
        algorithm and name a string kid before any key is looked up; the key
        must be found (refetching once) and verify the token; and "sub" must
        be a string, which becomes the user id. Every failure is a 401: a
        token that does not parse, is not RSA, has no kid, whose key is not
        found or does not verify it is an "invalid token"; a verified token
        without a string sub is "user ID not found in token". The key map
        changes only through the lookup of a well-formed token's kid. */
    method Middleware(request: Header, w: Header, parse: string -> Option<Token>,
                      verifies: (string, PublicKey) -> bool, refetch: Result<seq<JWK>>)
      returns (o: Outcome)
      modifies this
      ensures jwksURL == old(jwksURL)
      ensures o.Rejected? ==> o.response.status == Auth.Unauthorized
      ensures Auth.BearerToken(HeaderGet(request, "Authorization")).Err? ==>
        o == Rejected(ErrorResponse(w, Auth.Unauthorized, Auth.BearerToken(HeaderGet(request, "Authorization")).msg))
        && publicKeys == old(publicKeys)
      ensures
        var auth := Auth.BearerToken(HeaderGet(request, "Authorization"));
        auth.Ok? && !WellFormed(parse(auth.value)) ==>
          o == Rejected(ErrorResponse(w, Auth.Unauthorized, InvalidTokenMsg)) && publicKeys == old(publicKeys)
      ensures
        var auth := Auth.BearerToken(HeaderGet(request, "Authorization"));
        auth.Ok? && WellFormed(parse(auth.value)) ==>
          var tok := parse(auth.value).value;
          && publicKeys == KeysAfterLookup(old(publicKeys), tok.kid.value, refetch)
          && o == (if tok.kid.value !in publicKeys || !verifies(auth.value, publicKeys[tok.kid.value])
                   then Rejected(ErrorResponse(w, Auth.Unauthorized, InvalidTokenMsg))
                   else if tok.sub.None? then Rejected(ErrorResponse(w, Auth.Unauthorized, MissingUserMsg))
                   else Authenticated(tok.sub.value))
      ensures o.Authenticated? ==>
        exists token ::
          && HeaderGet(request, "Authorization") == "Bearer " + token
          && parse(token).Some? && parse(token).value.rsa && parse(token).value.kid.Some?
          && parse(token).value.kid.value in publicKeys
          && verifies(token, publicKeys[parse(token).value.kid.value])
          && parse(token).value.sub == Some(o.userId)
      ensures old(publicKeys).Keys <= publicKeys.Keys
    {
      var auth := Auth.BearerToken(HeaderGet(request, "Authorization"));
      if auth.Err? {
        return Rejected(ErrorResponse(w, Auth.Unauthorized, auth.msg));
      }
      var tokenString := auth.value;
      var parsed := parse(tokenString);
      if !WellFormed(parsed) {
        return Rejected(ErrorResponse(w, Auth.Unauthorized, InvalidTokenMsg));
      }
      var key := GetPublicKey(parsed.value.kid.value, refetch);
      if key.Err? || !verifies(tokenString, key.value) {
        return Rejected(ErrorResponse(w, Auth.Unauthorized, InvalidTokenMsg));
      }
      if parsed.value.sub.None? {
        return Rejected(ErrorResponse(w, Auth.Unauthorized, MissingUserMsg));
      }
      o := Authenticated(parsed.value.sub.value);
    }
  }
}
