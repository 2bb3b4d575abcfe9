/** The cache-rule table (internal/services/cacherule_service.go). Rows are
    kept in insertion order with serial ids, so "ORDER BY id DESC" is the
    reverse of the table. */
module CacheRuleService {
  import opened Wrappers
  import opened Models
  import Tables

  const DefaultKeyPattern := "*"

  function PatternOrDefault(pattern: string): (r: string)
    ensures pattern == "" ==> r == DefaultKeyPattern
    ensures pattern != "" ==> r == pattern
  {
    if pattern == "" then DefaultKeyPattern else pattern
  }

  function RuleId(r: CacheRule): int { r.id }

  class CacheRuleTable {
    var rows: seq<CacheRule>
    var nextId: nat

    ghost predicate Valid()
      reads this
    {
      Tables.IncreasingBy(rows, RuleId) && (forall i :: 0 <= i < |rows| ==> rows[i].id < nextId)
    }

    constructor ()
      ensures Valid() && rows == [] && nextId == 1
    {
      rows, nextId := [], 1;
    }

    /** The rule is stored enabled, with an empty key pattern replaced by "*". */
    method Create(req: CreateCacheRuleRequest) returns (rule: CacheRule)
      requires Valid()
      modifies this
      ensures Valid()
      ensures rule == CacheRule(old(nextId), req.routeId, req.ttlSeconds, PatternOrDefault(req.keyPattern), true)
      ensures rows == old(rows) + [rule] && nextId == old(nextId) + 1
    {
      rule := CacheRule(nextId, req.routeId, req.ttlSeconds, PatternOrDefault(req.keyPattern), true);
      rows := rows + [rule];
      nextId := nextId + 1;
    }

    /** SELECT ... WHERE route_id = $1 AND enabled = true: a disabled rule is
        indistinguishable from no rule. */
    function GetByRouteID(routeId: int): (r: Result<CacheRule>)
      reads this
      ensures r.Ok? ==> r.value in rows && r.value.routeId == routeId && r.value.enabled
      ensures r.Err? <==> forall i :: 0 <= i < |rows| ==> !(rows[i].routeId == routeId && rows[i].enabled)
    {
      match Tables.FindFirst(rows, (x: CacheRule) => x.routeId == routeId && x.enabled)
      case Some(i) => Ok(rows[i])
      case None => Err("failed to get cache rule")
    }

    /** Every rule, ids descending. */
    method List() returns (rules: seq<CacheRule>)
      requires Valid()
      ensures |rules| == |rows|
      ensures forall i :: 0 <= i < |rules| ==> rules[i] == rows[|rows| - 1 - i]
      ensures forall i, j :: 0 <= i < j < |rules| ==> rules[i].id > rules[j].id
    {
      rules := Tables.NewestFirst(rows);
    }

    /** UPDATE cache_rules SET ttl_seconds, enabled WHERE id RETURNING the
        row: only those two columns change, and the returned rule is the
        updated row, its route id and key pattern included; a missing id is
        an error and changes nothing. */
    method Update(id: nat, ttl: int, enabled: bool) returns (r: Result<CacheRule>)
      requires Valid()
      modifies this
      ensures Valid() && nextId == old(nextId)
      ensures (forall i :: 0 <= i < |old(rows)| ==> old(rows)[i].id != id) ==> r.Err? && rows == old(rows)
      ensures forall i :: 0 <= i < |old(rows)| && old(rows)[i].id == id ==>
        r == Ok(old(rows)[i].(ttlSeconds := ttl, enabled := enabled))
      ensures r.Ok? ==> r.value.id == id && r.value.ttlSeconds == ttl && r.value.enabled == enabled
      ensures |rows| == |old(rows)|
      ensures forall i :: 0 <= i < |rows| ==>
        rows[i] == if old(rows)[i].id == id then old(rows)[i].(ttlSeconds := ttl, enabled := enabled) else old(rows)[i]
    {
      match Tables.FindFirst(rows, (x: CacheRule) => x.id == id)
      case None =>
        r := Err("failed to update cache rule");
      case Some(k) =>
        assert forall i :: 0 <= i < |rows| && rows[i].id == id ==> i == k by {
          assert Tables.IncreasingBy(rows, RuleId);
        }
        var row := rows[k].(ttlSeconds := ttl, enabled := enabled);
        rows := rows[k := row];
        r := Ok(row);
    }

    /** DELETE FROM cache_rules WHERE id = $1: a missing id is no error. */
    method Delete(id: nat)
      requires Valid()
      modifies this
      ensures Valid() && nextId == old(nextId)
      ensures rows == Tables.RemoveWhere(old(rows), (x: CacheRule) => x.id == id)
      ensures forall i :: 0 <= i < |rows| ==> rows[i].id != id
    {
      Tables.RemoveWhereIncreasing(rows, (x: CacheRule) => x.id == id, RuleId);
      rows := Tables.RemoveWhere(rows, (x: CacheRule) => x.id == id);
    }
  }
}
