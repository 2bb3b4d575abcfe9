/** Backend selection and request forwarding (internal/services/proxy_service.go).
    The selector keeps one atomic uint64 counter per request path; the HTTP
    client call (and the request construction before it) is an oracle from
    the outbound request to a response or a transport error. */
module ProxyService {
  import opened Wrappers
  import opened Models
  import opened Strings
  import opened Arith

  const U64: nat := 0x1_0000_0000_0000_0000

  // ---- round robin ----

  /** atomic.Uint64.Add(1): the counter after one increment, wrapping at 2^64. */
  function Bump(c: nat): (r: nat)
    ensures r < U64
    ensures c + 1 < U64 ==> r == c + 1
  {
    (c + 1) % U64
  }

  /** The counter after `k` increments. */
  function Bumps(c: nat, k: nat): nat
  {
    if k == 0 then c else Bump(Bumps(c, k - 1))
  }

  lemma {:induction false} BumpsNoWrap(c: nat, k: nat)
    requires c + k < U64
    ensures Bumps(c, k) == c + k
  {
    if k > 0 {
      BumpsNoWrap(c, k - 1);
    }
  }

  /** The counter a path starts from: created at 0 on first use. */
  function CounterOf(counters: map<string, nat>, path: string): nat
  {
    if path in counters then counters[path] else 0
  }

  /** The index of the `k`-th (1-based) multi-backend selection for a path
      whose counter started at `c`. */
  function PickIndex(c: nat, k: nat, n: nat): nat
    requires n > 0
  {
    Bumps(c, k) % n
  }

  /** For a fresh path the k-th selection picks backend k mod n, so the
      first one picks index 1. */
  lemma FreshPathPicks(k: nat, n: nat)
    requires n >= 2 && k < U64
    ensures PickIndex(0, k, n) == k % n
    ensures PickIndex(0, 1, n) == 1
  {
    BumpsNoWrap(0, k);
    BumpsNoWrap(0, 1);
    assert PickIndex(0, k, n) == k % n;
    ModUnique(1, 0, 1, n);
  }

  lemma ShiftDistinct(a: int, i: int, j: int, n: int)
    requires n > 0 && 0 <= i < j < n
    ensures (a + i) % n != (a + j) % n
  {
    var q, r := (a + i) / n, (a + i) % n;
    assert a + i == q * n + r;
    if r + (j - i) < n {
      ModUnique(a + j, q, r + (j - i), n);
    } else {
      ModUnique(a + j, q + 1, r + (j - i) - n, n);
    }
  }

  lemma ShiftCovers(a: int, t: int, n: int)
    requires n > 0 && 0 <= t < n
    ensures 0 <= (t - a) % n < n && (a + (t - a) % n) % n == t
  {
    var j := (t - a) % n;
    var q := (t - a) / n;
    assert t - a == q * n + j;
    ModUnique(a + j, -q, t, n);
  }

  /** The indices picked by the next n multi-backend selections. */
  function Picks(c: nat, n: nat): seq<nat>
    requires n > 0
  {
    seq(n, i requires 0 <= i < n => PickIndex(c, i + 1, n))
  }

  /** Below the wrap, the i-th pick is the counter plus i + 1, mod n. */
  lemma PickAt(c: nat, n: nat, i: nat)
    requires n > 0 && i < n && c + n < U64
    ensures Picks(c, n)[i] == (c + 1 + i) % n
  {
    BumpsNoWrap(c, i + 1);
  }

  /** n consecutive multi-backend selections for one path over an n-element
      list (while the counter does not wrap) pick every index exactly once. */
  lemma RoundRobinCycle(c: nat, n: nat)
    requires n >= 2 && c + n < U64
    ensures forall i, j :: 0 <= i < j < n ==> Picks(c, n)[i] != Picks(c, n)[j]
    ensures forall t :: 0 <= t < n ==> t in Picks(c, n)
  {
    var ps := Picks(c, n);
    forall i, j | 0 <= i < j < n
      ensures ps[i] != ps[j]
    {
      PickAt(c, n, i);
      PickAt(c, n, j);
      ShiftDistinct(c + 1, i, j, n);
    }
    forall t | 0 <= t < n
      ensures t in ps
    {
      ShiftCovers(c + 1, t, n);
      var k := (t - (c + 1)) % n;
      PickAt(c, n, k);
      assert ps[k] == t;
    }
  }

  /** The index selectBackend picks for a list of n backends. */
  function SelectedIndex(counters: map<string, nat>, n: nat, path: string): (i: nat)
    requires n >= 1
    ensures i < n
  {
    if n == 1 then 0 else PickIndex(CounterOf(counters, path), 1, n)
  }

  /** The counters after selectBackend for a list of n backends. */
  function CountersAfter(counters: map<string, nat>, n: nat, path: string): map<string, nat>
  {
    if n == 1 then counters else counters[path := Bump(CounterOf(counters, path))]
  }

  // ---- path, URL and headers ----

  /** The backend-relative path AS WRITTEN: the route path is cut off
      wherever the original path starts with it as a string, and an empty
      rest becomes "/". */
  function TrimmedPathAsWritten(originalPath: string, routePath: string): (r: string)
    ensures r != ""
    ensures HasPrefix(originalPath, routePath) && originalPath != routePath ==> originalPath == routePath + r
    ensures !HasPrefix(originalPath, routePath) && originalPath != "" ==> r == originalPath
    ensures originalPath == routePath ==> r == "/"
  {
    var t := if HasPrefix(originalPath, routePath) then TrimPrefix(originalPath, routePath) else originalPath;
    if t == "" then "/" else t
  }

  /** The discrepancy: route "/a" reached through the "/api/" fallback as
      "/api/a" is cut inside the "/api" segment, leaving "pi/a", a path
      without its leading slash that is then glued onto the backend URL. */
  lemma TrimCutsInsideSegment()
    ensures TrimmedPathAsWritten("/api/a", "/a") == "pi/a"
    ensures "http://backend" + TrimmedPathAsWritten("/api/a", "/a") == "http://backendpi/a"
  {
    assert HasPrefix("/api/a", "/a");
  }

  /** The backend-relative path as evidently intended: the route path is cut
      off only when it is the whole original path or is followed by "/"; an
      empty rest becomes "/". The two definitions differ only where the route
      path is a proper prefix of the original path that is not followed by
      "/": a cut inside a segment ("/a" under "/api/a"), or a route path that
      itself ends in "/" ("/" under "/api/"). */
  function BackendPath(originalPath: string, routePath: string): (r: string)
    ensures r != ""
    ensures HasPrefix(originalPath, "/") ==> HasPrefix(r, "/")
    ensures !HasPrefix(originalPath, routePath) ==> r == TrimmedPathAsWritten(originalPath, routePath)
    ensures originalPath == routePath ==> r == "/"
    ensures HasPrefix(originalPath, routePath + "/") ==> r == TrimmedPathAsWritten(originalPath, routePath)
    ensures r != TrimmedPathAsWritten(originalPath, routePath) ==>
      HasPrefix(originalPath, routePath) && originalPath != routePath && !HasPrefix(originalPath, routePath + "/")
  {
    if originalPath == routePath || originalPath == "" then "/"
    else if HasPrefix(originalPath, routePath + "/") then
      assert HasPrefix(originalPath, routePath);
      assert originalPath[|routePath|] == (routePath + "/")[|routePath|];
      originalPath[|routePath|..]
    else originalPath
  }

  /** The URL the request goes to: plain concatenation, no escaping. */
  function FinalURL(backend: string, path: string): (url: string)
    ensures HasPrefix(url, backend) && url[|backend|..] == path
  {
    backend + path
  }

  /** The outbound header: every caller header that has a value, copied, and
      Accept forced to application/json. */
  function OutboundHeader(h: Header): (r: Header)
    ensures "Accept" in r && r["Accept"] == ["application/json"]
    ensures forall k :: k != "Accept" ==> (k in r <==> k in h && h[k] != [])
    ensures forall k :: k != "Accept" && k in r ==> r[k] == h[k]
  {
    SetHeader(WithAdded(map[], h), "Accept", "application/json")
  }

  /** The request the transport sees. */
  datatype Outbound = Outbound(verb: string, url: string, header: Header, body: string, timeoutMs: int)

  /** The request Forward sends for a non-empty backend list. */
  function OutboundFor(counters: map<string, nat>, backendURLs: seq<string>, verb: string, originalPath: string,
                       routePath: string, header: Header, body: string, timeoutMs: int): (o: Outbound)
    requires |backendURLs| >= 1
    ensures o.verb == verb && o.body == body && o.timeoutMs == timeoutMs && o.header == OutboundHeader(header)
    ensures exists i :: 0 <= i < |backendURLs| && o.url == backendURLs[i] + BackendPath(originalPath, routePath)
  {
    var i := SelectedIndex(counters, |backendURLs|, originalPath);
    Outbound(verb, FinalURL(backendURLs[i], BackendPath(originalPath, routePath)), OutboundHeader(header), body, timeoutMs)
  }

  /** The upstream response: status, header and body. */
  datatype Upstream = Upstream(status: int, header: Header, body: string)

  class ProxyService {
    var counters: map<string, nat>

    ghost predicate Valid()
      reads this
    {
      forall p :: p in counters ==> counters[p] < U64
    }

    constructor ()
      ensures Valid() && counters == map[]
    {
      counters := map[];
    }

    /** selectBackend: a single backend is returned without touching the
        counters; otherwise the path's counter (created at 0 on first use) is
        incremented and picks the backend at that value mod n. Only that one
        counter changes, and no counter is ever removed. */
    method SelectBackend(backends: seq<string>, path: string) returns (b: string)
      requires Valid() && |backends| >= 1
      modifies this
      ensures Valid()
      ensures |backends| == 1 ==> b == backends[0] && counters == old(counters)
      ensures |backends| >= 2 ==>
        && counters == old(counters)[path := Bump(CounterOf(old(counters), path))]
        && b == backends[PickIndex(CounterOf(old(counters), path), 1, |backends|)]
      ensures old(counters).Keys <= counters.Keys
      ensures b == backends[SelectedIndex(old(counters), |backends|, path)]
      ensures counters == CountersAfter(old(counters), |backends|, path)
    {
      if |backends| == 1 {
        return backends[0];
      }
      var counter := 0;
      if path in counters {
        counter := counters[path];
      } else {
        counters := counters[path := 0];
      }
      var next := Bump(counter);
      assert Bumps(counter, 1) == next;
      counters := counters[path := next];
      b := backends[next % |backends|];
    }

    /** Copies the caller's header value by value into a new request header,
        then sets Accept. */
    method BuildHeader(h: Header) returns (out: Header)
      ensures out == OutboundHeader(h)
    {
      out := AddAll(map[], h);
      out := SetHeader(out, "Accept", "application/json");
    }

    /** Forward: no backends is an error before any selection; otherwise a
        backend is selected (advancing the counter whatever happens next),
        the request goes to backend + backend-relative path with the copied
        header and the body unchanged, and the transport's answer or error is
        returned as it is. */
    method Forward(backendURLs: seq<string>, verb: string, originalPath: string, routePath: string,
                   header: Header, body: string, timeoutMs: int,
                   transport: Outbound -> Result<Upstream>) returns (r: Result<Upstream>)
      requires Valid()
      modifies this
      ensures Valid()
      ensures |backendURLs| == 0 ==> r.Err? && counters == old(counters)
      ensures |backendURLs| == 1 ==>
        && counters == old(counters)
        && r == transport(Outbound(verb, FinalURL(backendURLs[0], BackendPath(originalPath, routePath)),
                                   OutboundHeader(header), body, timeoutMs))
      ensures |backendURLs| >= 1 ==>
        && counters == CountersAfter(old(counters), |backendURLs|, originalPath)
        && r == transport(OutboundFor(old(counters), backendURLs, verb, originalPath, routePath, header, body, timeoutMs))
      ensures |backendURLs| >= 2 ==>
        var c := CounterOf(old(counters), originalPath);
        && counters == old(counters)[originalPath := Bump(c)]
        && r == transport(Outbound(verb,
                 FinalURL(backendURLs[PickIndex(c, 1, |backendURLs|)], BackendPath(originalPath, routePath)),
                 OutboundHeader(header), body, timeoutMs))
    {
      if |backendURLs| == 0 {
        return Err("no backend URLs configured");
      }
      var backend := SelectBackend(backendURLs, originalPath);
      var trimmed := BackendPath(originalPath, routePath);
      var url := FinalURL(backend, trimmed);
      var h := BuildHeader(header);
      r := transport(Outbound(verb, url, h, body, timeoutMs));
    }
  }
}
