/** The records the gateway stores and passes around (internal/models/models.go),
    restricted to the fields the modelled code reads or writes. Database ids
    are BIGSERIAL values and so natural numbers; creation time is represented
    by insertion order (see the table classes). */
module Models {
  import opened Wrappers

  datatype Route = Route(
    id: nat,
    path: string,
    backendURLs: seq<string>,
    strategy: string,
    timeoutMs: int,
    retryCount: int)

  datatype APIKey = APIKey(
    id: nat,
    key: string,
    name: string,
    tier: string,
    rateLimitRPM: int,
    enabled: bool,
    userId: string)

  datatype CacheRule = CacheRule(
    id: nat,
    routeId: int,
    ttlSeconds: int,
    keyPattern: string,
    enabled: bool)

  /** One request outcome as the proxy handler records it. Times are in the
      caller's clock (seconds); latency is in milliseconds. */
  datatype AnalyticsEvent = AnalyticsEvent(
    timestamp: nat,
    routeId: Option<nat>,
    apiKeyId: Option<nat>,
    userId: string,
    statusCode: int,
    latencyMs: nat,
    cacheHit: bool,
    ipAddress: string)

  datatype CreateRouteRequest = CreateRouteRequest(
    path: string,
    backendURLs: seq<string>,
    strategy: string,
    timeoutMs: int,
    retryCount: int)

  datatype UpdateRouteRequest = UpdateRouteRequest(
    backendURLs: seq<string>,
    strategy: string,
    timeoutMs: int,
    retryCount: int)

  datatype CreateAPIKeyRequest = CreateAPIKeyRequest(name: string, tier: string, rateLimitRPM: int)

  datatype CreateCacheRuleRequest = CreateCacheRuleRequest(routeId: int, ttlSeconds: int, keyPattern: string)

  /** net/http's Header: canonical name to the list of values. */
  type Header = map<string, seq<string>>

  /** What a handler writes back: status code, header and body. */
  datatype Response = Response(status: int, header: Header, body: string)

  /** header.Set(name, value): the name now has exactly that one value. */
  function SetHeader(h: Header, name: string, value: string): (r: Header)
    ensures r.Keys == h.Keys + {name} && r[name] == [value]
    ensures forall k :: k in h && k != name ==> r[k] == h[k]
  {
    h[name := [value]]
  }

  /** header.Add(name, value): the value is appended to the name's list. */
  function AddHeader(h: Header, name: string, value: string): (r: Header)
    ensures r.Keys == h.Keys + {name}
    ensures r[name] == (if name in h then h[name] else []) + [value]
    ensures forall k :: k in h && k != name ==> r[k] == h[k]
  {
    h[name := (if name in h then h[name] else []) + [value]]
  }

  /** `h` after header.Add(k, v) for every value v of every k in `from`: each
      name keeps its own values and gains those of `from` after them; a name
      whose list in `from` is empty is not created. */
  function WithAdded(h: Header, from: Header): (r: Header)
    ensures forall k :: k in r <==> k in h || (k in from && from[k] != [])
    ensures forall k :: k in r ==> r[k] == (if k in h then h[k] else []) + (if k in from then from[k] else [])
  {
    map k | k in h.Keys + from.Keys && (k in h || from[k] != []) ::
      (if k in h then h[k] else []) + (if k in from then from[k] else [])
  }

  /** The part of `from` whose names are in `names`. */
  function Restrict(from: Header, names: set<string>): (r: Header)
    ensures forall k :: k in r <==> k in from && k in names
  {
    map k | k in from && k in names :: from[k]
  }

  /** `h` with `values` added under the one name `k`. */
  function Appended(h: Header, k: string, values: seq<string>): Header
  {
    if values == [] then h else h[k := (if k in h then h[k] else []) + values]
  }

  /** One more header.Add extends the values added under that name. */
  lemma AddOneMore(base: Header, k: string, values: seq<string>, i: nat)
    requires i < |values|
    ensures AddHeader(Appended(base, k, values[..i]), k, values[i]) == Appended(base, k, values[..i + 1])
  {
    var prior := if k in base then base[k] else [];
    assert values[..i + 1] == values[..i] + [values[i]];
    if i == 0 {
      assert values[..i] == [];
      assert prior + values[..i + 1] == prior + [values[i]];
    } else {
      assert prior + values[..i + 1] == (prior + values[..i]) + [values[i]];
    }
  }

  /** Adding all values of one more name extends the copied part by that name. */
  lemma AddOneName(h: Header, from: Header, done: set<string>, k: string)
    requires k in from && k !in done
    ensures Appended(WithAdded(h, Restrict(from, done)), k, from[k]) == WithAdded(h, Restrict(from, done + {k}))
  {
    var a, b := Appended(WithAdded(h, Restrict(from, done)), k, from[k]), WithAdded(h, Restrict(from, done + {k}));
    forall x
      ensures (x in a <==> x in b) && (x in a ==> a[x] == b[x])
    {
      AddOneNameAt(h, from, done, k, x);
    }
  }

  /** AddOneName, name by name. */
  lemma AddOneNameAt(h: Header, from: Header, done: set<string>, k: string, x: string)
    requires k in from && k !in done
    ensures var a, b := Appended(WithAdded(h, Restrict(from, done)), k, from[k]), WithAdded(h, Restrict(from, done + {k}));
      (x in a <==> x in b) && (x in a ==> a[x] == b[x])
  {
    if x == k {
      assert k !in Restrict(from, done);
      assert k in Restrict(from, done + {k});
    } else {
      assert (x in Restrict(from, done) <==> x in Restrict(from, done + {k}));
    }
  }

  /** Adding no values changes nothing. */
  lemma AddNothing(base: Header, from: Header)
    requires forall k :: k in from ==> from[k] == []
    ensures WithAdded(base, from) == base
  {
    var a := WithAdded(base, from);
    assert forall x :: x in a <==> x in base;
    assert forall x :: x in a ==> a[x] == base[x];
  }

  lemma RestrictAll(from: Header, names: set<string>)
    requires names == from.Keys
    ensures Restrict(from, names) == from
  {
  }

  /** The inner copy loop: header.Add(k, v) for each value, in order. */
  method AddValues(h: Header, k: string, values: seq<string>) returns (out: Header)
    ensures out == Appended(h, k, values)
  {
    out := h;
    var i := 0;
    while i < |values|
      invariant 0 <= i <= |values|
      invariant out == Appended(h, k, values[..i])
    {
      AddOneMore(h, k, values, i);
      out := AddHeader(out, k, values[i]);
      i := i + 1;
    }
    assert values[..|values|] == values;
  }

  /** The copy loop over every name of `from` and every one of its values. */
  method AddAll(h: Header, from: Header) returns (out: Header)
    ensures out == WithAdded(h, from)
  {
    out := h;
    var done: set<string> := {};
    AddNothing(h, Restrict(from, done));
    while done != from.Keys
      invariant done <= from.Keys
      invariant out == WithAdded(h, Restrict(from, done))
      invariant from.Keys - done != {} <==> done != from.Keys
      decreases from.Keys - done
    {
      var k :| k in from.Keys - done;
      out := AddValues(out, k, from[k]);
      AddOneName(h, from, done, k);
      done := done + {k};
    }
    RestrictAll(from, done);
  }

  /** header.Get(name): the first value, or "" when there is none. */
  function HeaderGet(h: Header, name: string): (v: string)
    ensures name in h && h[name] != [] ==> v == h[name][0]
    ensures !(name in h && h[name] != []) ==> v == ""
  {
    if name in h && h[name] != [] then h[name][0] else ""
  }

  /** http.Error(w, msg, code): plain-text content type, nosniff, the message and a newline. */
  function ErrorResponse(h: Header, status: int, msg: string): (r: Response)
    ensures r.status == status && r.body == msg + "\n"
    ensures "Content-Type" in r.header && r.header["Content-Type"] == ["text/plain; charset=utf-8"]
    ensures "X-Content-Type-Options" in r.header && r.header["X-Content-Type-Options"] == ["nosniff"]
  {
    Response(status, SetHeader(SetHeader(h, "Content-Type", "text/plain; charset=utf-8"), "X-Content-Type-Options", "nosniff"), msg + "\n")
  }
}
