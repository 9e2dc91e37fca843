/** `fold_bounded` refines the cold fold of the log through any sequence of
    reads and appends, and what exactly it reports as the state before its
    bound. */
module FoldOnReadRuns {
  import opened JsonValue
  import opened EventLog
  import opened LogStore
  import opened Folding
  import opened FoldOnRead
  import opened FoldOnReadProof

  // ── Folding the merge ─────────────────────────────────────────────

  /** The event continues the history of its own stream in `h`. */
  ghost predicate Continues(h: seq<Event>, id: Uuid, e: Event) {
    e.stream.subject == id && e.revision == |Stream(h, e.stream)|
  }

  lemma FoldOneKeepsEntry(aggs: Aggregators, key: Key, bound: nat, h: seq<Event>, f: Progress, e: Event)
    requires EntryAt(aggs, key, h, f.entry) && Continues(h, key.id, e)
    ensures EntryAt(aggs, key, h + [e], FoldOne(aggs, key.aggType, bound, f, e).entry)
  {
    var entry := FoldOne(aggs, key.aggType, bound, f, e).entry;
    assert (h + [e])[..|h|] == h;
    forall s ensures TailOk(h + [e], entry.tails, s, key.id) {
      assert TailOk(h, f.entry.tails, s, key.id);
      assert Stream(h + [e], StreamId(s, key.id))
          == Stream(h, StreamId(s, key.id)) + if e.stream == StreamId(s, key.id) then [e] else [];
    }
  }

  /** A feed is dense stream by stream. */
  lemma FeedContinues(log: Log, streams: seq<string>, id: Uuid, n: nat)
    requires WellFormed(log) && n < |Feed(log, streams, id)|
    ensures Continues(Feed(log, streams, id)[..n], id, Feed(log, streams, id)[n])
  {
    var feed := Feed(log, streams, id);
    var e := feed[n];
    FeedMember(log, streams, id, e);
    assert e in feed;
    var sid := e.stream;
    FeedKeepsStreams(log, streams, id, sid.category);
    StreamIsDense(log, sid);
    var before := Stream(feed[..n], sid);
    assert feed[..n + 1][..n] == feed[..n];
    assert Stream(feed[..n + 1], sid) == before + [e];
    StreamGrows(feed[..n + 1], feed, sid);
    assert Stream(log, sid)[|before|] == e;
  }

  /** Folding `feed[m..i]` onto `start` gives the entry of `feed[..i]`. */
  ghost predicate EntryAfter(aggs: Aggregators, key: Key, feed: seq<Event>, bound: nat, start: CacheEntry,
      m: nat, i: nat)
    requires m <= i <= |feed|
  {
    EntryAt(aggs, key, feed[..i], FoldMerged(aggs, key.aggType, bound, start, feed[m..i]).entry)
  }

  lemma {:induction false} FoldOneMore(aggs: Aggregators, key: Key, feed: seq<Event>, bound: nat, start: CacheEntry,
      m: nat, i: nat)
    requires m <= i < |feed| && Continues(feed[..i], key.id, feed[i])
    requires EntryAfter(aggs, key, feed, bound, start, m, i)
    ensures EntryAfter(aggs, key, feed, bound, start, m, i + 1)
  {
    assert feed[m..i + 1][..i - m] == feed[m..i] && feed[..i + 1] == feed[..i] + [feed[i]];
    FoldOneKeepsEntry(aggs, key, bound, feed[..i], FoldMerged(aggs, key.aggType, bound, start, feed[m..i]), feed[i]);
  }

  /** Folding a stretch onto the fold of what comes before it. */
  lemma {:induction false} FoldStretch(aggs: Aggregators, key: Key, log: Log, bound: nat, start: CacheEntry, m: nat,
      n: nat)
    requires WellFormed(log) && m <= n <= |FeedOf(aggs, key, log)|
    requires EntryAt(aggs, key, FeedOf(aggs, key, log)[..m], start)
    ensures EntryAfter(aggs, key, FeedOf(aggs, key, log), bound, start, m, n)
    decreases n
  {
    var feed := FeedOf(aggs, key, log);
    if m < n {
      FoldStretch(aggs, key, log, bound, start, m, n - 1);
      FeedContinues(log, Streams(aggs, key.aggType), key.id, n - 1);
      FoldOneMore(aggs, key, feed, bound, start, m, n - 1);
    } else {
      assert feed[m..m] == [];
    }
  }

  lemma {:induction false} FoldedToIsLast(aggs: Aggregators, t: string, bound: nat, start: CacheEntry,
      merged: seq<Event>)
    ensures FoldMerged(aggs, t, bound, start, merged).entry.foldedTo
         == if merged == [] then start.foldedTo else merged[|merged| - 1].position
  {
  }

  // ── The cache invariant ───────────────────────────────────────────

  /** `state`, `foldedTo` and every stream tail describe one cold fold. */
  ghost predicate CacheOk(aggs: Aggregators, key: Key, log: Log, entry: CacheEntry) {
    entry.foldedTo <= LastPosition(log) && EntryAt(aggs, key, Behind(aggs, key, log, entry.foldedTo), entry)
  }

  ghost predicate CachedOk(aggs: Aggregators, key: Key, log: Log, cached: Option<CacheEntry>) {
    cached.Some? ==> CacheOk(aggs, key, log, cached.value)
  }

  lemma StartIsOk(aggs: Aggregators, key: Key, log: Log, cached: Option<CacheEntry>, bound: nat)
    requires WellFormed(log) && Registered(aggs, key.aggType) && CachedOk(aggs, key, log, cached)
    ensures var start := StartOf(aggs, key.aggType, cached, bound);
            && start.foldedTo <= bound && start.foldedTo <= LastPosition(log)
            && EntryAt(aggs, key, Behind(aggs, key, log, start.foldedTo), start)
  {
    var feed := FeedOf(aggs, key, log);
    if feed != [] {
      FeedMember(log, Streams(aggs, key.aggType), key.id, feed[0]);
      var i :| 0 <= i < |log| && log[i] == feed[0];
      assert DenseAt(log, i);
    }
    assert Behind(aggs, key, log, 0) == [];
  }

  /** Between the last event at or below `q` and `q` itself nothing feeds. */
  lemma UpToLast(h: seq<Event>, p: nat, q: nat)
    requires Ordered(h) && p <= q
    ensures var b := Between(h, p, q);
            Reach(h, if b == [] then p else b[|b| - 1].position) == Reach(h, q)
  {
  }

  /** From a start that is the fold of what lies behind it, the merge folds to
      the cold fold at the bound, and the entry it leaves is again one. */
  lemma {:induction false} FoldFromStart(aggs: Aggregators, key: Key, log: Log, views: seq<Log>, start: CacheEntry,
      bound: nat)
    requires WellFormed(log) && |Streams(aggs, key.aggType)| <= |views| && ViewsOk(log, views, bound)
    requires start.foldedTo <= bound && start.foldedTo <= LastPosition(log)
    requires EntryAt(aggs, key, Behind(aggs, key, log, start.foldedTo), start)
    ensures var f := FoldMerged(aggs, key.aggType, bound, start, Merged(aggs, key, views, start, bound));
            && f.entry.state == ColdFold(aggs, key, log, bound)
            && CacheOk(aggs, key, log, f.entry)
  {
    MergedIsBetween(aggs, key, log, views, start, bound);
    BetweenFolds(aggs, key, log, start, bound);
  }

  lemma {:induction false} BetweenFolds(aggs: Aggregators, key: Key, log: Log, start: CacheEntry, bound: nat)
    requires WellFormed(log) && Ordered(FeedOf(aggs, key, log))
    requires start.foldedTo <= bound && start.foldedTo <= LastPosition(log)
    requires EntryAt(aggs, key, Behind(aggs, key, log, start.foldedTo), start)
    ensures var feed := FeedOf(aggs, key, log);
            var f := FoldMerged(aggs, key.aggType, bound, start, Between(feed, start.foldedTo, bound));
            f.entry.state == ColdFold(aggs, key, log, bound) && CacheOk(aggs, key, log, f.entry)
  {
    FoldBetween(aggs, key, log, bound, start);
    WatermarkIsLast(aggs, key, log, start, bound);
  }

  /** The watermark a merge leaves: nothing feeds between it and the bound. */
  lemma {:induction false} WatermarkIsLast(aggs: Aggregators, key: Key, log: Log, start: CacheEntry, bound: nat)
    requires WellFormed(log) && Ordered(FeedOf(aggs, key, log))
    requires start.foldedTo <= bound && start.foldedTo <= LastPosition(log)
    ensures var feed := FeedOf(aggs, key, log);
            var f := FoldMerged(aggs, key.aggType, bound, start, Between(feed, start.foldedTo, bound));
            f.entry.foldedTo <= LastPosition(log) && Reach(feed, f.entry.foldedTo) == Reach(feed, bound)
  {
    var feed := FeedOf(aggs, key, log);
    ReachMonotone(feed, start.foldedTo, bound);
    var merged := Between(feed, start.foldedTo, bound);
    FoldedToIsLast(aggs, key.aggType, bound, start, merged);
    UpToLast(feed, start.foldedTo, bound);
    if merged != [] {
      var i := Reach(feed, bound) - 1;
      assert feed[i] == merged[|merged| - 1];
      FeedBelowLast(aggs, key, log, i);
    }
  }

  lemma {:induction false} FoldBetween(aggs: Aggregators, key: Key, log: Log, bound: nat, start: CacheEntry)
    requires WellFormed(log) && Ordered(FeedOf(aggs, key, log)) && start.foldedTo <= bound
    requires EntryAt(aggs, key, Behind(aggs, key, log, start.foldedTo), start)
    ensures var between := Between(FeedOf(aggs, key, log), start.foldedTo, bound);
            var f := FoldMerged(aggs, key.aggType, bound, start, between);
            EntryAt(aggs, key, Behind(aggs, key, log, bound), f.entry)
  {
    var feed := FeedOf(aggs, key, log);
    ReachMonotone(feed, start.foldedTo, bound);
    var m, n := Reach(feed, start.foldedTo), Reach(feed, bound);
    FoldStretch(aggs, key, log, bound, start, m, n);
  }

  /** One read, with the log growing past its bound underneath it: the result
      is the cold fold at the bound, the cache stays right, and a read below
      the watermark leaves it as it was. */
  lemma ReadIsColdFold(aggs: Aggregators, key: Key, log: Log, views: seq<Log>, cached: Option<CacheEntry>, bound: nat)
    requires WellFormed(log) && Registered(aggs, key.aggType) && |Streams(aggs, key.aggType)| <= |views|
    requires ViewsOk(log, views, bound) && CachedOk(aggs, key, log, cached)
    ensures var r := Read(aggs, key, views, cached, bound);
            && r.curr == ColdFold(aggs, key, log, bound)
            && r.cached.Some? && CacheOk(aggs, key, log, r.cached.value)
            && (cached.Some? && bound < cached.value.foldedTo ==> r.cached == cached)
  {
    StartIsOk(aggs, key, log, cached, bound);
    FoldFromStart(aggs, key, log, views, StartOf(aggs, key.aggType, cached, bound), bound);
  }

  lemma FeedBelowLast(aggs: Aggregators, key: Key, log: Log, i: nat)
    requires WellFormed(log) && i < |FeedOf(aggs, key, log)|
    ensures FeedOf(aggs, key, log)[i].position <= LastPosition(log)
  {
    var e := FeedOf(aggs, key, log)[i];
    FeedMember(log, Streams(aggs, key.aggType), key.id, e);
    var j :| 0 <= j < |log| && log[j] == e;
    PositionsBounded(log, j);
  }

  // ── Runs of reads and appends ─────────────────────────────────────

  /** A step of a partition worker's life: the log grows, or a read runs. */
  datatype ReadStep = Grow(log: Log) | ReadAt(bound: nat, views: seq<Log>)

  datatype Worker = Worker(log: Log, cached: Option<CacheEntry>)

  function Take(aggs: Aggregators, key: Key, w: Worker, step: ReadStep): Worker
    requires Registered(aggs, key.aggType)
  {
    match step
    case Grow(log) => w.(log := log)
    case ReadAt(bound, views) =>
      if |Streams(aggs, key.aggType)| > |views| then w
      else w.(cached := Read(aggs, key, views, w.cached, bound).cached)
  }

  function After(aggs: Aggregators, key: Key, steps: seq<ReadStep>): Worker
    requires Registered(aggs, key.aggType)
  {
    if steps == [] then Worker([], None)
    else Take(aggs, key, After(aggs, key, steps[..|steps| - 1]), steps[|steps| - 1])
  }

  /** Appends land past everything written; each read's streams are read from
      the log as it stands or as it has grown past the read's bound. */
  ghost predicate Legal(aggs: Aggregators, key: Key, log: Log, step: ReadStep) {
    match step
    case Grow(log') =>
      && log <= log' && WellFormed(log')
      && forall i: nat | |log| <= i < |log'| :: log'[i].position > LastPosition(log)
    case ReadAt(bound, views) => |Streams(aggs, key.aggType)| <= |views| && ViewsOk(log, views, bound)
  }

  ghost predicate LegalRun(aggs: Aggregators, key: Key, steps: seq<ReadStep>)
    requires Registered(aggs, key.aggType)
  {
    steps == [] || (LegalRun(aggs, key, steps[..|steps| - 1])
                    && Legal(aggs, key, After(aggs, key, steps[..|steps| - 1]).log, steps[|steps| - 1]))
  }

  lemma {:induction false} ReachExtends(h: seq<Event>, more: seq<Event>, p: nat)
    requires forall e | e in more :: p < e.position
    ensures Reach(h + more, p) == Reach(h, p)
  {
    if h == [] {
      assert h + more == more;
      assert forall i | 0 <= i < |more| :: more[i] in more;
    } else {
      assert (h + more)[1..] == h[1..] + more;
      ReachExtends(h[1..], more, p);
    }
  }

  lemma GrowthKeepsCache(aggs: Aggregators, key: Key, log: Log, log': Log, entry: CacheEntry)
    requires CacheOk(aggs, key, log, entry) && WellFormed(log) && Legal(aggs, key, log, Grow(log'))
    ensures CacheOk(aggs, key, log', entry)
  {
    BehindGrows(aggs, key, log, log', entry.foldedTo);
    assert |log| < |log'| ==> log'[|log'| - 1].position > LastPosition(log);
  }

  lemma BehindGrows(aggs: Aggregators, key: Key, log: Log, log': Log, p: nat)
    requires log <= log' && forall i: nat | |log| <= i < |log'| :: log'[i].position > p
    ensures Behind(aggs, key, log', p) == Behind(aggs, key, log, p)
  {
    var streams, more := Streams(aggs, key.aggType), log'[|log|..];
    assert log' == log + more;
    FeedOfAppend(log, more, streams, key.id);
    forall e | e in Feed(more, streams, key.id) ensures p < e.position {
      FeedMember(more, streams, key.id, e);
      var i :| 0 <= i < |more| && more[i] == e;
      assert log'[|log| + i] == e;
    }
    var feed := FeedOf(aggs, key, log);
    ReachExtends(feed, Feed(more, streams, key.id), p);
    assert (feed + Feed(more, streams, key.id))[..Reach(feed, p)] == feed[..Reach(feed, p)];
  }

  lemma {:induction false} RunKeepsCache(aggs: Aggregators, key: Key, steps: seq<ReadStep>)
    requires Registered(aggs, key.aggType) && LegalRun(aggs, key, steps)
    ensures var w := After(aggs, key, steps);
            WellFormed(w.log) && CachedOk(aggs, key, w.log, w.cached)
  {
    if steps != [] {
      var front, step := steps[..|steps| - 1], steps[|steps| - 1];
      RunKeepsCache(aggs, key, front);
      var w := After(aggs, key, front);
      match step {
        case Grow(log') => if w.cached.Some? { GrowthKeepsCache(aggs, key, w.log, log', w.cached.value); }
        case ReadAt(bound, views) => ReadIsColdFold(aggs, key, w.log, views, w.cached, bound);
      }
    }
  }

  /** Refinement: after any sequence of appends and reads at any bounds, each
      further read returns the cold fold of the log at its bound, and keeps
      the cache an exact cold fold; below the watermark it leaves it alone. */
  lemma ReadsRefineColdFold(aggs: Aggregators, key: Key, steps: seq<ReadStep>, bound: nat, views: seq<Log>)
    requires Registered(aggs, key.aggType) && LegalRun(aggs, key, steps + [ReadAt(bound, views)])
    ensures var w := After(aggs, key, steps);
            var w' := After(aggs, key, steps + [ReadAt(bound, views)]);
            && |Streams(aggs, key.aggType)| <= |views|
            && Read(aggs, key, views, w.cached, bound).curr == ColdFold(aggs, key, w.log, bound)
            && w'.cached.Some? && CacheOk(aggs, key, w.log, w'.cached.value)
            && (w.cached.Some? && bound < w.cached.value.foldedTo ==> w' == w)
  {
    var all := steps + [ReadAt(bound, views)];
    assert all[..|all| - 1] == steps;
    RunKeepsCache(aggs, key, steps);
    var w := After(aggs, key, steps);
    ReadIsColdFold(aggs, key, w.log, views, w.cached, bound);
  }
}
