/** The analytics pipeline (internal/analytics/analytics.go): a bounded
    drop-on-full queue filled by request handlers, and one consumer loop that
    moves queued events into an accumulation list and writes it to the
    database in batches. The consumer's select is modelled as a script of
    triggers in the order they fire; the database is an oracle saying at
    which row of a batch (if any) execution fails. A pgx batch sent without
    explicit transaction control runs as one implicit transaction, so a
    failing row rolls the whole batch back. */
module Analytics {
  import opened Wrappers
  import opened Models

  /** The channel's buffer size. */
  const QueueCapacity: nat := 1000
  /** The accumulation is flushed when it reaches this many events. */
  const BatchSize: nat := 100
  /** The ticker period, in seconds. */
  const TickSeconds: nat := 5

  /** The columns one analytics_events INSERT writes: the event without its
      user id. */
  datatype Row = Row(
    timestamp: nat,
    routeId: Option<nat>,
    apiKeyId: Option<nat>,
    statusCode: int,
    latencyMs: nat,
    cacheHit: bool,
    ipAddress: string)

  function ToRow(e: AnalyticsEvent): (r: Row)
    ensures r.timestamp == e.timestamp && r.routeId == e.routeId && r.apiKeyId == e.apiKeyId
    ensures r.statusCode == e.statusCode && r.latencyMs == e.latencyMs
    ensures r.cacheHit == e.cacheHit && r.ipAddress == e.ipAddress
  {
    Row(e.timestamp, e.routeId, e.apiKeyId, e.statusCode, e.latencyMs, e.cacheHit, e.ipAddress)
  }

  function Rows(events: seq<AnalyticsEvent>): (rs: seq<Row>)
    ensures |rs| == |events|
    ensures forall i :: 0 <= i < |events| ==> rs[i] == ToRow(events[i])
  {
    seq(|events|, i requires 0 <= i < |events| => ToRow(events[i]))
  }

  /** The rows of one batch that reach the table: all of them when every
      INSERT succeeds; none when one fails, since the batch's implicit
      transaction is rolled back. Nothing is retried. */
  function Written(events: seq<AnalyticsEvent>, failAt: Option<nat>): (rs: seq<Row>)
    ensures rs == [] || rs == Rows(events)
    ensures failAt.None? ==> rs == Rows(events)
    ensures failAt.Some? && failAt.value < |events| ==> rs == []
  {
    if failAt.Some? && failAt.value < |events| then [] else Rows(events)
  }

  /** One call to flushEvents with a non-empty list: the events sent and the
      rows the database kept. */
  datatype Flush = Flush(events: seq<AnalyticsEvent>, written: seq<Row>)

  /** All events handed to flushEvents, in call order. */
  function Sent(fs: seq<Flush>): seq<AnalyticsEvent>
  {
    if fs == [] then [] else Sent(fs[..|fs| - 1]) + fs[|fs| - 1].events
  }

  /** All rows kept by the database, in call order. */
  function Kept(fs: seq<Flush>): seq<Row>
  {
    if fs == [] then [] else Kept(fs[..|fs| - 1]) + fs[|fs| - 1].written
  }

  /** Every flush kept either all of its rows or none of them. */
  ghost predicate AllOrNothing(fs: seq<Flush>)
  {
    forall i :: 0 <= i < |fs| ==> fs[i].written == [] || fs[i].written == Rows(fs[i].events)
  }

  /** Every flush sent between 1 and 100 events. */
  ghost predicate BatchesSized(fs: seq<Flush>)
  {
    forall i :: 0 <= i < |fs| ==> 0 < |fs[i].events| <= BatchSize
  }

  lemma AllOrNothingAppend(fs: seq<Flush>, f: Flush)
    requires AllOrNothing(fs)
    requires f.written == [] || f.written == Rows(f.events)
    ensures AllOrNothing(fs + [f])
  {
    assert forall i :: 0 <= i < |fs| ==> (fs + [f])[i] == fs[i];
  }

  lemma BatchesSizedAppend(fs: seq<Flush>, f: Flush)
    requires BatchesSized(fs) && 0 < |f.events| <= BatchSize
    ensures BatchesSized(fs + [f])
  {
    assert forall i :: 0 <= i < |fs| ==> (fs + [f])[i] == fs[i];
  }

  lemma SentAppend(fs: seq<Flush>, f: Flush)
    ensures Sent(fs + [f]) == Sent(fs) + f.events
    ensures Kept(fs + [f]) == Kept(fs) + f.written
  {
    assert (fs + [f])[..|fs|] == fs;
  }

  /** When no flush failed, the table holds exactly the rows of every event
      ever flushed, in the order they were flushed. */
  lemma {:induction false} NoFailureKeepsAll(fs: seq<Flush>)
    requires forall i :: 0 <= i < |fs| ==> fs[i].written == Rows(fs[i].events)
    ensures Kept(fs) == Rows(Sent(fs))
  {
    if fs != [] {
      var init := fs[..|fs| - 1];
      NoFailureKeepsAll(init);
      RowsAppend(Sent(init), fs[|fs| - 1].events);
    }
  }

  lemma RowsAppend(a: seq<AnalyticsEvent>, b: seq<AnalyticsEvent>)
    ensures Rows(a + b) == Rows(a) + Rows(b)
  {
  }

  /** Rows are never invented: the table never holds more rows than events
      were flushed. */
  lemma {:induction false} KeptBounded(fs: seq<Flush>)
    requires AllOrNothing(fs)
    ensures |Kept(fs)| <= |Sent(fs)|
  {
    if fs != [] {
      KeptBounded(fs[..|fs| - 1]);
    }
  }

  /** The queue after a non-blocking send: the event joins the end unless
      the queue is full, in which case it is dropped. */
  function Offer(queue: seq<AnalyticsEvent>, e: AnalyticsEvent): (r: seq<AnalyticsEvent>)
    ensures |queue| < QueueCapacity ==> r == queue + [e]
    ensures |queue| >= QueueCapacity ==> r == queue
  {
    if |queue| < QueueCapacity then queue + [e] else queue
  }

  /** What the consumer loop's select picks next. Track stands for a request
      handler's TrackRequest running in between. */
  datatype Trigger =
    | Track(event: AnalyticsEvent)
    | Receive(failAt: Option<nat>)
    | Tick(failAt: Option<nat>)
    | Done(failAt: Option<nat>)

  /** The consumer loop's state: the channel buffer, the accumulation and
      the flushes so far. */
  datatype LoopState = LoopState(queue: seq<AnalyticsEvent>, events: seq<AnalyticsEvent>, flushes: seq<Flush>)

  /** Every event the queue has accepted, oldest first: flushed, then
      accumulated, then still queued. */
  function Accepted(s: LoopState): seq<AnalyticsEvent>
  {
    Sent(s.flushes) + s.events + s.queue
  }

  /** flushEvents on the accumulation, which is then cleared: an empty
      accumulation leaves the flushes alone. */
  function FlushedAndCleared(s: LoopState, failAt: Option<nat>): LoopState
  {
    if s.events == [] then s
    else LoopState(s.queue, [], s.flushes + [Flush(s.events, Written(s.events, failAt))])
  }

  /** One select case of the consumer loop (or one TrackRequest in between). */
  function Next(s: LoopState, t: Trigger): LoopState
  {
    match t
    case Track(e) => s.(queue := Offer(s.queue, e))
    case Receive(failAt) =>
      if s.queue == [] then s
      else
        var s1 := LoopState(s.queue[1..], s.events + [s.queue[0]], s.flushes);
        if |s1.events| >= BatchSize then FlushedAndCleared(s1, failAt) else s1
    case Tick(failAt) => FlushedAndCleared(s, failAt)
    case Done(failAt) => FlushedAndCleared(s, failAt)
  }

  /** The first k triggers taken in order. */
  function Run(s: LoopState, ts: seq<Trigger>, k: nat): LoopState
    requires k <= |ts|
  {
    if k == 0 then s else Next(Run(s, ts, k - 1), ts[k - 1])
  }

  /** The events a trigger adds to what the queue has accepted: a tracked
      event that finds room. */
  function Admitted(s: LoopState, t: Trigger): seq<AnalyticsEvent>
  {
    if t.Track? && |s.queue| < QueueCapacity then [t.event] else []
  }

  /** The events the first k triggers add, in order. */
  function AdmittedBy(s: LoopState, ts: seq<Trigger>, k: nat): seq<AnalyticsEvent>
    requires k <= |ts|
  {
    if k == 0 then [] else AdmittedBy(s, ts, k - 1) + Admitted(Run(s, ts, k - 1), ts[k - 1])
  }

  /** No trigger loses an accepted event or takes back a flush or a row:
      a receive moves the oldest queued event behind the accumulation, and
      a flush moves the accumulation behind the flushed events. */
  lemma NextAccepted(s: LoopState, t: Trigger)
    ensures Accepted(Next(s, t)) == Accepted(s) + Admitted(s, t)
    ensures Sent(s.flushes) <= Sent(Next(s, t).flushes) && Kept(s.flushes) <= Kept(Next(s, t).flushes)
  {
    var r := Next(s, t);
    if t.Track? {
      assert r.flushes == s.flushes && r.events == s.events;
    } else if t.Receive? && s.queue != [] {
      assert s.queue == [s.queue[0]] + s.queue[1..];
      var s1 := LoopState(s.queue[1..], s.events + [s.queue[0]], s.flushes);
      assert Accepted(s1) == Accepted(s);
      FlushedAccepted(s1, t.failAt);
    } else if !t.Receive? {
      FlushedAccepted(s, t.failAt);
    }
  }

  lemma FlushedAccepted(s: LoopState, failAt: Option<nat>)
    ensures Accepted(FlushedAndCleared(s, failAt)) == Accepted(s)
    ensures Sent(s.flushes) <= Sent(FlushedAndCleared(s, failAt).flushes)
    ensures Kept(s.flushes) <= Kept(FlushedAndCleared(s, failAt).flushes)
  {
    if s.events != [] {
      SentAppend(s.flushes, Flush(s.events, Written(s.events, failAt)));
    }
  }

  /** Running the triggers in order: the accepted events grow by exactly the
      tracked events that found room, in order, and nothing flushed or
      written is taken back. */
  lemma {:induction false} RunAccepted(s: LoopState, ts: seq<Trigger>, k: nat)
    requires k <= |ts|
    ensures Accepted(Run(s, ts, k)) == Accepted(s) + AdmittedBy(s, ts, k)
  {
    if k > 0 {
      var p := Run(s, ts, k - 1);
      RunAccepted(s, ts, k - 1);
      NextAccepted(p, ts[k - 1]);
      calc {
        Accepted(Run(s, ts, k));
        Accepted(p) + Admitted(p, ts[k - 1]);
        (Accepted(s) + AdmittedBy(s, ts, k - 1)) + Admitted(p, ts[k - 1]);
        Accepted(s) + AdmittedBy(s, ts, k);
      }
    }
  }

  /** Running the triggers never takes back a flush or a written row. */
  lemma {:induction false} RunKeeps(s: LoopState, ts: seq<Trigger>, k: nat)
    requires k <= |ts|
    ensures Sent(s.flushes) <= Sent(Run(s, ts, k).flushes) && Kept(s.flushes) <= Kept(Run(s, ts, k).flushes)
  {
    if k > 0 {
      var p := Run(s, ts, k - 1);
      RunKeeps(s, ts, k - 1);
      NextAccepted(p, ts[k - 1]);
      PrefixTrans(Sent(s.flushes), Sent(p.flushes), Sent(Run(s, ts, k).flushes));
      PrefixTrans(Kept(s.flushes), Kept(p.flushes), Kept(Run(s, ts, k).flushes));
    }
  }

  lemma PrefixTrans<T>(a: seq<T>, b: seq<T>, c: seq<T>)
    requires a <= b && b <= c
    ensures a <= c
  {
    assert c[..|a|] == b[..|a|];
  }

  /** No shutdown among the first k triggers. */
  predicate NoDoneBefore(ts: seq<Trigger>, k: int)
  {
    forall i :: 0 <= i < k && i < |ts| ==> !ts[i].Done?
  }

  lemma NoDoneExtend(ts: seq<Trigger>, k: int)
    requires NoDoneBefore(ts, k) && (0 <= k < |ts| ==> !ts[k].Done?)
    ensures NoDoneBefore(ts, k + 1)
  {
  }

  /** Only tracked events are ever admitted. */
  lemma {:induction false} AdmittedAreTracked(s: LoopState, ts: seq<Trigger>, k: nat, e: AnalyticsEvent)
    requires k <= |ts| && e in AdmittedBy(s, ts, k)
    ensures exists i :: 0 <= i < k && ts[i] == Track(e)
  {
    if e in AdmittedBy(s, ts, k - 1) {
      AdmittedAreTracked(s, ts, k - 1, e);
    } else {
      assert ts[k - 1] == Track(e);
    }
  }

  class Analytics {
    /** The channel buffer, oldest first. */
    var queue: seq<AnalyticsEvent>
    /** The consumer's `events` slice. */
    var events: seq<AnalyticsEvent>
    /** Every flushEvents call with a non-empty list, and what it kept. */
    var flushes: seq<Flush>
    /** The analytics_events table as the gateway has written it. */
    var table: seq<Row>
    /** The consumer loop has returned. */
    var stopped: bool
    /** Every event the queue has accepted, in order. */
    ghost var accepted: seq<AnalyticsEvent>

    ghost predicate Valid()
      reads this
    {
      && |queue| <= QueueCapacity
      && |events| < BatchSize
      && accepted == Sent(flushes) + events + queue
      && table == Kept(flushes)
      && AllOrNothing(flushes)
      && BatchesSized(flushes)
    }

    function State(): LoopState
      reads this
    {
      LoopState(queue, events, flushes)
    }

    /** NewAnalytics: an empty queue of capacity 1000 and nothing written. */
    constructor ()
      ensures Valid() && !stopped
      ensures queue == [] && events == [] && flushes == [] && table == [] && accepted == []
    {
      queue := [];
      events := [];
      flushes := [];
      table := [];
      stopped := false;
      accepted := [];
    }

    /** TrackRequest never blocks: a full queue drops the event and is left
        as it is, otherwise the event joins the end of the queue. */
    method TrackRequest(e: AnalyticsEvent)
      requires Valid()
      modifies this
      ensures Valid()
      ensures |old(queue)| < QueueCapacity ==> queue == old(queue) + [e] && accepted == old(accepted) + [e]
      ensures |old(queue)| >= QueueCapacity ==> queue == old(queue) && accepted == old(accepted)
      ensures queue == Offer(old(queue), e)
      ensures events == old(events) && flushes == old(flushes) && table == old(table) && stopped == old(stopped)
    {
      if |queue| < QueueCapacity {
        queue := queue + [e];
        accepted := accepted + [e];
      }
    }

    /** flushEvents: an empty list does nothing; otherwise one batch of
        INSERTs in list order, whose results are read until the first
        failure; a failure rolls back the batch's implicit transaction. */
    method FlushEvents(batch: seq<AnalyticsEvent>, failAt: Option<nat>)
      requires table == Kept(flushes) && AllOrNothing(flushes)
      modifies this
      ensures batch == [] ==> flushes == old(flushes) && table == old(table)
      ensures batch != [] ==> flushes == old(flushes) + [Flush(batch, Written(batch, failAt))]
      ensures table == old(table) + Written(batch, failAt)
      ensures table == Kept(flushes) && AllOrNothing(flushes)
      ensures Sent(flushes) == Sent(old(flushes)) + batch
      ensures BatchesSized(old(flushes)) && |batch| <= BatchSize ==> BatchesSized(flushes)
      ensures queue == old(queue) && events == old(events) && stopped == old(stopped) && accepted == old(accepted)
    {
      if batch == [] {
        assert Sent(flushes) + batch == Sent(flushes);
        return;
      }
      var written: seq<Row> := [];
      var i := 0;
      while i < |batch|
        invariant 0 <= i <= |batch|
        invariant written == Rows(batch[..i])
        invariant failAt.Some? ==> i <= failAt.value
      {
        if failAt.Some? && failAt.value == i {
          break;
        }
        written := written + [ToRow(batch[i])];
        i := i + 1;
      }
      assert i == |batch| ==> batch[..i] == batch;
      if i < |batch| {
        written := [];
      }
      assert written == Written(batch, failAt);
      SentAppend(flushes, Flush(batch, written));
      AllOrNothingAppend(flushes, Flush(batch, written));
      if BatchesSized(flushes) && |batch| <= BatchSize {
        BatchesSizedAppend(flushes, Flush(batch, written));
      }
      flushes := flushes + [Flush(batch, written)];
      table := table + written;
    }

    /** A receive: takes the oldest queued event into the accumulation
        (an empty queue leaves the case disabled); reaching 100 accumulated
        events flushes them and clears the accumulation, failed or not. */
    method Receive(failAt: Option<nat>)
      requires Valid()
      modifies this
      ensures Valid() && stopped == old(stopped) && accepted == old(accepted)
      ensures old(queue) == [] ==> queue == old(queue) && events == old(events) && flushes == old(flushes)
      ensures old(queue) != [] ==> queue == old(queue)[1..]
      ensures old(queue) != [] && |old(events)| + 1 < BatchSize ==>
        events == old(events) + [old(queue)[0]] && flushes == old(flushes)
      ensures old(queue) != [] && |old(events)| + 1 == BatchSize ==>
        var batch := old(events) + [old(queue)[0]];
        events == [] && flushes == old(flushes) + [Flush(batch, Written(batch, failAt))]
      ensures Sent(old(flushes)) <= Sent(flushes) && old(table) <= table
    {
      if queue != [] {
        var e := queue[0];
        assert old(queue) == [e] + old(queue)[1..];
        queue := queue[1..];
        events := events + [e];
        assert accepted == Sent(flushes) + events + queue;
        if |events| >= BatchSize {
          ghost var sent := Sent(flushes);
          FlushEvents(events, failAt);
          assert Sent(flushes) + [] + queue == sent + (old(events) + [e]) + queue;
          assert sent <= Sent(flushes) && old(table) <= table;
          events := [];
        }
      }
    }

    /** A tick: a non-empty accumulation is flushed and cleared, an empty
        one is left alone. */
    method Tick(failAt: Option<nat>)
      requires Valid()
      modifies this
      ensures Valid() && stopped == old(stopped) && accepted == old(accepted)
      ensures queue == old(queue) && events == []
      ensures old(events) == [] ==> flushes == old(flushes)
      ensures old(events) != [] ==> flushes == old(flushes) + [Flush(old(events), Written(old(events), failAt))]
      ensures Sent(old(flushes)) <= Sent(flushes) && old(table) <= table
    {
      if |events| > 0 {
        ghost var sent := Sent(flushes);
        FlushEvents(events, failAt);
        assert Sent(flushes) + [] + queue == sent + old(events) + queue;
        assert sent <= Sent(flushes) && old(table) <= table;
        events := [];
      }
    }

    /** Shutdown: the accumulation is flushed once (flushEvents itself
        ignores an empty list) and the loop stops; events still queued are
        never written. */
    method Shutdown(failAt: Option<nat>)
      requires Valid()
      modifies this
      ensures Valid() && stopped && accepted == old(accepted)
      ensures queue == old(queue) && events == []
      ensures old(events) == [] ==> flushes == old(flushes)
      ensures old(events) != [] ==> flushes == old(flushes) + [Flush(old(events), Written(old(events), failAt))]
      ensures Sent(old(flushes)) <= Sent(flushes) && old(table) <= table
    {
      ghost var sent := Sent(flushes);
      FlushEvents(events, failAt);
      assert Sent(flushes) + [] + queue == sent + old(events) + queue;
      assert sent <= Sent(flushes) && old(table) <= table;
      events := [];
      stopped := true;
    }

    /** One iteration of the Start loop for the trigger that fired. */
    method Step(t: Trigger)
      requires Valid() && !stopped
      modifies this
      ensures Valid()
      ensures State() == Next(old(State()), t)
      ensures accepted == old(accepted) + Admitted(old(State()), t)
      ensures stopped <==> t.Done?
      ensures Sent(old(flushes)) <= Sent(flushes) && old(table) <= table
    {
      match t
      case Track(e) =>
        TrackRequest(e);
      case Receive(failAt) =>
        Receive(failAt);
      case Tick(failAt) =>
        Tick(failAt);
      case Done(failAt) =>
        Shutdown(failAt);
    }

    /** Start: runs triggers in order until shutdown. Returns how many were
        consumed; the loop stops exactly at the first Done. Nothing flushed
        or written before is ever taken back. */
    method Start(script: seq<Trigger>) returns (consumed: nat)
      requires Valid() && !stopped
      modifies this
      ensures Valid()
      ensures consumed <= |script|
      ensures NoDoneBefore(script, consumed - 1)
      ensures stopped <==> consumed > 0 && script[consumed - 1].Done?
      ensures !stopped ==> consumed == |script|
      ensures State() == Run(old(State()), script, consumed)
      ensures accepted == old(accepted) + AdmittedBy(old(State()), script, consumed)
      ensures Sent(old(flushes)) <= Sent(flushes) && old(table) <= table
    {
      ghost var s0, a0 := State(), accepted;
      consumed := 0;
      while consumed < |script| && !stopped
        invariant Valid()
        invariant consumed <= |script|
        invariant NoDoneBefore(script, consumed - 1)
        invariant stopped <==> consumed > 0 && script[consumed - 1].Done?
        invariant State() == Run(s0, script, consumed)
      {
        NoDoneExtend(script, consumed - 1);
        Step(script[consumed]);
        consumed := consumed + 1;
      }
      RunAccepted(s0, script, consumed);
      RunKeeps(s0, script, consumed);
      assert accepted == Accepted(State()) && a0 == Accepted(s0);
    }
  }
}
