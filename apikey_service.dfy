/** The API-key table (internal/services/apikey_service.go). Rows are kept in
    insertion order with serial ids, as for routes. The 32 random bytes a key
    is made from are a parameter: crypto/rand is outside the model. */
module APIKeyService {
  import opened Wrappers
  import opened Models
  import opened Encoding
  import Strings
  import Tables

  const KeyPrefix := "gw_"
  const DefaultTier := "free"

  /** generateAPIKey: "gw_" and the first 43 characters of the padded
      base64url encoding of 32 random bytes. Those 43 characters are exactly
      the unpadded encoding, so the key is 46 characters from the URL-safe
      alphabet after its prefix, and it determines the bytes it came from. */
  function GenerateAPIKey(random: seq<byte>): (key: string)
    requires |random| == 32
    ensures |key| == 46 && Strings.HasPrefix(key, KeyPrefix)
    ensures key[3..] == EncodeRaw(random)
    ensures forall i :: 3 <= i < |key| ==> InAlphabet(key[i])
  {
    var encoded := EncodePadded(random);
    EncodeRawLength(random);
    KeyPrefix + encoded[..43]
  }

  /** The bytes behind a generated key can be read back from it, so keys
      made from different bytes are different. */
  lemma GeneratedKeyDecodes(random: seq<byte>)
    requires |random| == 32
    ensures DecodeRaw(GenerateAPIKey(random)[3..]) == Some(random)
  {
    RawRoundTrip(random);
  }

  lemma GeneratedKeysDistinct(a: seq<byte>, b: seq<byte>)
    requires |a| == 32 && |b| == 32 && a != b
    ensures GenerateAPIKey(a) != GenerateAPIKey(b)
  {
    GeneratedKeyDecodes(a);
    GeneratedKeyDecodes(b);
  }

  function TierOrDefault(tier: string): (r: string)
    ensures tier == "" ==> r == DefaultTier
    ensures tier != "" ==> r == tier
  {
    if tier == "" then DefaultTier else tier
  }

  function KeyId(k: APIKey): int { k.id }

  /** Revoke's UPDATE: every row with that id becomes disabled, others are kept. */
  function RevokedRows(rows: seq<APIKey>, id: nat): (r: seq<APIKey>)
    ensures |r| == |rows|
    ensures forall i :: 0 <= i < |r| ==>
      r[i] == (if rows[i].id == id then rows[i].(enabled := false) else rows[i])
  {
    seq(|rows|, i requires 0 <= i < |rows| => if rows[i].id == id then rows[i].(enabled := false) else rows[i])
  }

  /** Revoking twice leaves the table as revoking once. */
  lemma RevokeIdempotent(rows: seq<APIKey>, id: nat)
    ensures RevokedRows(RevokedRows(rows, id), id) == RevokedRows(rows, id)
  {
  }

  class APIKeyTable {
    var rows: seq<APIKey>
    var nextId: nat

    ghost predicate Valid()
      reads this
    {
      Tables.IncreasingBy(rows, KeyId) && (forall i :: 0 <= i < |rows| ==> rows[i].id < nextId)
    }

    constructor ()
      ensures Valid() && rows == [] && nextId == 1
    {
      rows, nextId := [], 1;
    }

    /** A failure to draw random bytes is an error and inserts nothing;
        otherwise the key is stored enabled, with the tier defaulted to "free"
        and the rate limit as given. */
    method Create(req: CreateAPIKeyRequest, random: Result<seq<byte>>) returns (r: Result<APIKey>)
      requires Valid()
      requires random.Ok? ==> |random.value| == 32
      modifies this
      ensures Valid()
      ensures random.Err? ==> r.Err? && rows == old(rows) && nextId == old(nextId)
      ensures random.Ok? ==>
        && r == Ok(APIKey(old(nextId), GenerateAPIKey(random.value), req.name,
                          TierOrDefault(req.tier), req.rateLimitRPM, true, ""))
        && rows == old(rows) + [r.value] && nextId == old(nextId) + 1
    {
      if random.Err? {
        return Err("failed to generate API key");
      }
      var key := GenerateAPIKey(random.value);
      var row := APIKey(nextId, key, req.name, TierOrDefault(req.tier), req.rateLimitRPM, true, "");
      rows := rows + [row];
      nextId := nextId + 1;
      r := Ok(row);
    }

    /** SELECT ... WHERE key = $1 AND enabled = true: a key is found only by its
        exact token and only while enabled. */
    function GetByKey(key: string): (r: Result<APIKey>)
      reads this
      ensures r.Ok? ==> r.value in rows && r.value.key == key && r.value.enabled
      ensures r.Err? <==> forall i :: 0 <= i < |rows| ==> !(rows[i].key == key && rows[i].enabled)
    {
      match Tables.FindFirst(rows, (x: APIKey) => x.key == key && x.enabled)
      case Some(i) => Ok(rows[i])
      case None => Err("failed to get API key")
    }

    /** Every key, disabled ones included, newest first. */
    method List() returns (keys: seq<APIKey>)
      requires Valid()
      ensures |keys| == |rows|
      ensures forall i :: 0 <= i < |keys| ==> keys[i] == rows[|rows| - 1 - i]
      ensures forall i, j :: 0 <= i < j < |keys| ==> keys[i].id > keys[j].id
    {
      keys := Tables.NewestFirst(rows);
    }

    /** UPDATE api_keys SET enabled = false WHERE id = $1: afterwards no token
        finds the revoked key. */
    method Revoke(id: nat)
      requires Valid()
      modifies this
      ensures Valid() && nextId == old(nextId)
      ensures rows == RevokedRows(old(rows), id)
      ensures forall t :: GetByKey(t).Ok? ==> GetByKey(t).value.id != id
    {
      rows := RevokedRows(rows, id);
    }

    /** DELETE FROM api_keys WHERE id = $1: a missing id is no error. */
    method Delete(id: nat)
      requires Valid()
      modifies this
      ensures Valid() && nextId == old(nextId)
      ensures rows == Tables.RemoveWhere(old(rows), (x: APIKey) => x.id == id)
      ensures forall i :: 0 <= i < |rows| ==> rows[i].id != id
    {
      Tables.RemoveWhereIncreasing(rows, (x: APIKey) => x.id == id, KeyId);
      rows := Tables.RemoveWhere(rows, (x: APIKey) => x.id == id);
    }
  }
}
