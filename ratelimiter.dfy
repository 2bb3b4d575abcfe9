/** The fixed-window rate limiter (internal/services/ratelimiter.go): one
    counter per (identity, minute) in a Redis-like store, incremented on every
    call and given a two-minute expiry. Time is unix seconds, passed in. */
module RateLimiter {
  import opened Wrappers
  import opened Strings

  const WindowSeconds := 60
  const CounterTTLSeconds := 120
  const KeyPrefix := "ratelimit:"

  /** time.Truncate(time.Minute): the start of the minute `now` falls in. */
  function WindowStart(now: nat): (w: nat)
    ensures w % WindowSeconds == 0 && w <= now < w + WindowSeconds
  {
    now - now % WindowSeconds
  }

  /** "ratelimit:<identity>:<unix seconds of the window start>" */
  function WindowKey(identity: string, now: nat): (k: string)
    ensures HasPrefix(k, KeyPrefix + identity + ":")
    ensures var d := k[|KeyPrefix + identity + ":"|..];
      d != "" && (forall i :: 0 <= i < |d| ==> IsDigit(d[i])) && d == NatToString(WindowStart(now))
  {
    KeyPrefix + identity + ":" + NatToString(WindowStart(now))
  }

  lemma ColonSplit(a: string, b: string, d1: string, d2: string)
    requires ':' !in d1 && ':' !in d2
    requires a + ":" + d1 == b + ":" + d2
    ensures a == b && d1 == d2
  {
    var s := a + ":" + d1;
    assert s[|a|] == ':' && s[|b|] == ':';
    assert forall j :: |a| < j < |s| ==> s[j] == d1[j - |a| - 1];
    assert forall j :: |b| < j < |s| ==> s[j] == d2[j - |b| - 1];
    assert |a| == |b|;
    assert a == s[..|a|] == b;
    assert d1 == s[|a| + 1..] == d2;
  }

  /** Keys are equal exactly when the identity and the minute are: different
      identities, or different minutes, never share a counter. */
  lemma WindowKeyInjective(a: string, t1: nat, b: string, t2: nat)
    ensures WindowKey(a, t1) == WindowKey(b, t2) <==> a == b && WindowStart(t1) == WindowStart(t2)
  {
    if WindowKey(a, t1) == WindowKey(b, t2) {
      var d1, d2 := NatToString(WindowStart(t1)), NatToString(WindowStart(t2));
      assert ':' !in d1 by { assert forall i :: 0 <= i < |d1| ==> IsDigit(d1[i]); }
      assert ':' !in d2 by { assert forall i :: 0 <= i < |d2| ==> IsDigit(d2[i]); }
      assert KeyPrefix + a + ":" + d1 == KeyPrefix + (a + ":" + d1);
      assert KeyPrefix + b + ":" + d2 == KeyPrefix + (b + ":" + d2);
      assert (KeyPrefix + (a + ":" + d1))[|KeyPrefix|..] == a + ":" + d1;
      assert (KeyPrefix + (b + ":" + d2))[|KeyPrefix|..] == b + ":" + d2;
      ColonSplit(a, b, d1, d2);
      NatToStringInjective(WindowStart(t1), WindowStart(t2));
    }
  }

  /** A counter's value and the second it expires at. */
  datatype Counter = Counter(count: nat, expiresAt: nat)

  type Store = map<string, Counter>

  /** The count GET/INCR sees: an absent or expired counter is 0. */
  function CountAt(counters: Store, key: string, now: nat): nat
  {
    if key in counters && now < counters[key].expiresAt then counters[key].count else 0
  }

  /** One pipelined INCR + EXPIRE and the decision on the incremented count:
      every call counts, denied ones included, and a call is allowed iff the
      new count is at most the limit (never, for a limit of zero or less). */
  function Step(counters: Store, identity: string, limit: int, now: nat): (r: (Store, bool))
    ensures var key := WindowKey(identity, now);
      && key in r.0 && r.0[key] == Counter(CountAt(counters, key, now) + 1, now + CounterTTLSeconds)
      && (forall k :: k != key ==> (k in r.0 <==> k in counters) && (k in counters ==> r.0[k] == counters[k]))
      && (r.1 <==> CountAt(counters, key, now) + 1 <= limit)
    ensures limit <= 0 ==> !r.1
  {
    var key := WindowKey(identity, now);
    var count := CountAt(counters, key, now) + 1;
    (counters[key := Counter(count, now + CounterTTLSeconds)], count <= limit)
  }

  /** A sequence of calls by one identity at the given times, in order: the
      store afterwards and each call's decision. */
  function Replay(counters: Store, identity: string, limit: int, times: seq<nat>): (r: (Store, seq<bool>))
    ensures |r.1| == |times|
  {
    if times == [] then (counters, [])
    else
      var prev := Replay(counters, identity, limit, times[..|times| - 1]);
      var next := Step(prev.0, identity, limit, times[|times| - 1]);
      (next.0, prev.1 + [next.1])
  }

  /** Within one minute window, starting from no counter, the calls are
      counted one by one: the k-th call sees count k, so calls 1..limit are
      allowed and every later call in the window is denied. */
  lemma {:induction false} WindowAdmitsLimit(counters: Store, identity: string, limit: int, times: seq<nat>, w: nat)
    requires forall i :: 0 <= i < |times| ==> WindowStart(times[i]) == w
    requires WindowKey(identity, w) !in counters
    ensures forall t: nat :: WindowStart(t) == w ==>
      CountAt(Replay(counters, identity, limit, times).0, WindowKey(identity, w), t) == |times|
    ensures forall i :: 0 <= i < |times| ==> Replay(counters, identity, limit, times).1[i] == (i + 1 <= limit)
  {
    var key := WindowKey(identity, w);
    if times != [] {
      var n := |times|;
      var init := times[..n - 1];
      WindowAdmitsLimit(counters, identity, limit, init, w);
      var prev := Replay(counters, identity, limit, init);
      var now := times[n - 1];
      assert WindowKey(identity, now) == key;
      assert CountAt(prev.0, key, now) == n - 1;
      var next := Step(prev.0, identity, limit, now);
      forall t: nat | WindowStart(t) == w
        ensures CountAt(next.0, key, t) == n
      {
        assert t < w + WindowSeconds <= now + CounterTTLSeconds;
      }
    }
  }

  /** A call never changes the counter of another identity or another minute. */
  lemma StepIndependent(counters: Store, a: string, limit: int, t1: nat, b: string, t2: nat, later: nat)
    requires a != b || WindowStart(t1) != WindowStart(t2)
    ensures CountAt(Step(counters, a, limit, t1).0, WindowKey(b, t2), later) == CountAt(counters, WindowKey(b, t2), later)
  {
    WindowKeyInjective(a, t1, b, t2);
  }

  class RateLimiter {
    var counters: Store
    var available: bool

    constructor ()
      ensures counters == map[] && available
    {
      counters, available := map[], true;
    }

    /** Allow: a store failure gives (false, error) and counts nothing;
        otherwise the call is counted and judged as Step says. */
    method Allow(identity: string, limit: int, now: nat) returns (allowed: bool, err: Option<string>)
      modifies this
      ensures available == old(available)
      ensures !available ==> !allowed && err.Some? && counters == old(counters)
      ensures available ==> err.None? && (counters, allowed) == Step(old(counters), identity, limit, now)
    {
      if !available {
        return false, Some("failed to execute pipeline");
      }
      var key := WindowKey(identity, now);
      var count := CountAt(counters, key, now) + 1;
      counters := counters[key := Counter(count, now + CounterTTLSeconds)];
      allowed, err := count <= limit, None;
    }

    /** GetCount: the current window's count, 0 when there is none; reading changes nothing. */
    function GetCount(identity: string, now: nat): (r: Result<nat>)
      reads this
      ensures !available <==> r.Err?
      ensures r.Ok? ==> r.value == CountAt(counters, WindowKey(identity, now), now)
    {
      if !available then Err("failed to get count") else Ok(CountAt(counters, WindowKey(identity, now), now))
    }
  }
}
