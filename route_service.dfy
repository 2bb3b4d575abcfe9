/** The routes table (internal/services/route_service.go). The table is a
    sequence of rows in insertion order; ids come from a serial counter, so
    they increase along the sequence, and "ORDER BY created_at DESC" is the
    reverse of insertion order. */
module RouteService {
  import opened Wrappers
  import opened Models
  import Tables

  const DefaultStrategy := "round-robin"
  const DefaultTimeoutMs := 30000

  /** Create's in-place defaulting of the request: an empty strategy becomes
      "round-robin", a zero timeout 30000 ms, everything else is kept. */
  function WithDefaults(req: CreateRouteRequest): (r: CreateRouteRequest)
    ensures req.strategy == "" ==> r.strategy == DefaultStrategy
    ensures req.timeoutMs == 0 ==> r.timeoutMs == DefaultTimeoutMs
    ensures req.strategy != "" ==> r.strategy == req.strategy
    ensures req.timeoutMs != 0 ==> r.timeoutMs == req.timeoutMs
    ensures r.path == req.path && r.backendURLs == req.backendURLs && r.retryCount == req.retryCount
  {
    var req := if req.strategy == "" then req.(strategy := DefaultStrategy) else req;
    if req.timeoutMs == 0 then req.(timeoutMs := DefaultTimeoutMs) else req
  }

  /** Defaulting twice is defaulting once. */
  lemma WithDefaultsIdempotent(req: CreateRouteRequest)
    ensures WithDefaults(WithDefaults(req)) == WithDefaults(req)
  {
  }

  /** The row Update writes: only the four updatable columns change. */
  function Updated(row: Route, req: UpdateRouteRequest): (r: Route)
    ensures r.id == row.id && r.path == row.path
    ensures r.backendURLs == req.backendURLs && r.strategy == req.strategy
    ensures r.timeoutMs == req.timeoutMs && r.retryCount == req.retryCount
  {
    row.(backendURLs := req.backendURLs, strategy := req.strategy,
         timeoutMs := req.timeoutMs, retryCount := req.retryCount)
  }

  function RouteId(r: Route): int { r.id }

  predicate IdsIncreasing(rows: seq<Route>) {
    Tables.IncreasingBy(rows, RouteId)
  }

  class RouteTable {
    var rows: seq<Route>
    var nextId: nat

    ghost predicate Valid()
      reads this
    {
      IdsIncreasing(rows) && (forall i :: 0 <= i < |rows| ==> rows[i].id < nextId)
    }

    constructor ()
      ensures Valid() && rows == [] && nextId == 1
    {
      rows, nextId := [], 1;
    }

    /** INSERT ... RETURNING: the defaulted request is stored under a fresh id. */
    method Create(req: CreateRouteRequest) returns (route: Route)
      requires Valid()
      modifies this
      ensures Valid()
      ensures var d := WithDefaults(req);
        route == Route(old(nextId), d.path, d.backendURLs, d.strategy, d.timeoutMs, d.retryCount)
      ensures rows == old(rows) + [route] && nextId == old(nextId) + 1
    {
      var d := WithDefaults(req);
      route := Route(nextId, d.path, d.backendURLs, d.strategy, d.timeoutMs, d.retryCount);
      rows := rows + [route];
      nextId := nextId + 1;
    }

    /** SELECT ... WHERE path = $1: the first row whose path is exactly `path`. */
    function GetByPath(path: string): (r: Result<Route>)
      reads this
      ensures r.Ok? ==> r.value in rows && r.value.path == path
      ensures r.Err? <==> forall i :: 0 <= i < |rows| ==> rows[i].path != path
    {
      match Tables.FindFirst(rows, (x: Route) => x.path == path)
      case Some(i) => Ok(rows[i])
      case None => Err("failed to get route")
    }

    /** SELECT ... WHERE id = $1 */
    function GetByID(id: nat): (r: Result<Route>)
      reads this
      ensures r.Ok? ==> r.value in rows && r.value.id == id
      ensures r.Err? <==> forall i :: 0 <= i < |rows| ==> rows[i].id != id
    {
      match Tables.FindFirst(rows, (x: Route) => x.id == id)
      case Some(i) => Ok(rows[i])
      case None => Err("failed to get route")
    }

    /** SELECT ... ORDER BY created_at DESC, collected row by row: every
        route, newest first. */
    method List() returns (routes: seq<Route>)
      requires Valid()
      ensures |routes| == |rows|
      ensures forall i :: 0 <= i < |routes| ==> routes[i] == rows[|rows| - 1 - i]
      ensures forall i, j :: 0 <= i < j < |routes| ==> routes[i].id > routes[j].id
    {
      routes := Tables.NewestFirst(rows);
    }

    /** UPDATE routes SET backend_urls, strategy, timeout, retry_count WHERE id:
        the row with that id gets the new values and nothing else changes; a
        missing id is an error and leaves the table as it was. */
    method Update(id: nat, req: UpdateRouteRequest) returns (r: Result<Route>)
      requires Valid()
      modifies this
      ensures Valid() && nextId == old(nextId)
      ensures old(GetByID(id)).Err? ==> r.Err? && rows == old(rows)
      ensures old(GetByID(id)).Ok? ==>
        && r == Ok(Updated(old(GetByID(id)).value, req))
        && |rows| == |old(rows)|
        && forall i :: 0 <= i < |rows| ==>
             rows[i] == if old(rows)[i].id == id then Updated(old(rows)[i], req) else old(rows)[i]
    {
      match Tables.FindFirst(rows, (x: Route) => x.id == id)
      case None =>
        r := Err("failed to update route");
      case Some(k) =>
        var row := Updated(rows[k], req);
        rows := rows[k := row];
        r := Ok(row);
    }

    /** DELETE FROM routes WHERE id = $1: the row goes; a missing id is no error. */
    method Delete(id: nat)
      requires Valid()
      modifies this
      ensures Valid() && nextId == old(nextId)
      ensures rows == Tables.RemoveWhere(old(rows), (x: Route) => x.id == id)
      ensures GetByID(id).Err?
    {
      Tables.RemoveWhereIncreasing(rows, (x: Route) => x.id == id, RouteId);
      rows := Tables.RemoveWhere(rows, (x: Route) => x.id == id);
    }
  }
}
