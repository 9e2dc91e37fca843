/** What `fold_bounded` reports as the state before its bound. Documented as
    the fold without the event at the bound, it is that fold exactly when the
    aggregate has no fact at the bound, or a single one that is not yet behind
    the cache's watermark. */
module FoldOnReadPrev {
  import opened JsonValue
  import opened EventLog
  import opened Folding
  import opened Counting
  import opened FoldOnRead
  import opened FoldOnReadProof
  import opened FoldOnReadRuns
  import opened Toggle

  /** A fact of the aggregate at the bound. */
  predicate Hit(aggs: Aggregators, t: string, e: Event, bound: nat) {
    e.position == bound && Matching(aggs, t, e.kind).Some?
  }

  function LastHit(aggs: Aggregators, t: string, h: seq<Event>, lo: nat, hi: nat, bound: nat): (r: Option<nat>)
    requires lo <= hi <= |h|
    ensures r.Some? ==> lo <= r.value < hi && Hit(aggs, t, h[r.value], bound)
    ensures r.Some? ==> forall j | r.value < j < hi :: !Hit(aggs, t, h[j], bound)
    ensures r.None? ==> forall j | lo <= j < hi :: !Hit(aggs, t, h[j], bound)
    decreases hi
  {
    if lo == hi then None
    else if Hit(aggs, t, h[hi - 1], bound) then Some(hi - 1)
    else LastHit(aggs, t, h, lo, hi - 1, bound)
  }

  /** The fold before event `i` of the feed, if there is one to report. */
  function FoldBefore(aggs: Aggregators, t: string, h: seq<Event>, i: Option<nat>): Option<State>
    requires Registered(aggs, t) && (i.Some? ==> i.value <= |h|)
  {
    if i.None? then None else Some(PrefixFold(aggs, t, h[..i.value]))
  }

  lemma FoldMergedSnoc(aggs: Aggregators, t: string, bound: nat, start: CacheEntry, h: seq<Event>, m: nat, i: nat)
    requires m <= i < |h|
    ensures FoldMerged(aggs, t, bound, start, h[m..i + 1])
         == FoldOne(aggs, t, bound, FoldMerged(aggs, t, bound, start, h[m..i]), h[i])
  {
    assert h[m..i + 1][..i - m] == h[m..i];
  }

  /** Folding on from `m`, the state at `n` is the fold of everything so far. */
  ghost predicate StateAt(aggs: Aggregators, t: string, bound: nat, start: CacheEntry, h: seq<Event>, m: nat, n: nat)
    requires Registered(aggs, t) && m <= n <= |h|
  {
    FoldMerged(aggs, t, bound, start, h[m..n]).entry.state == PrefixFold(aggs, t, h[..n])
  }

  lemma StatesAgree(aggs: Aggregators, key: Key, log: Log, bound: nat, start: CacheEntry, m: nat, n: nat)
    requires WellFormed(log) && m <= n <= |FeedOf(aggs, key, log)|
    requires EntryAt(aggs, key, FeedOf(aggs, key, log)[..m], start)
    ensures StateAt(aggs, key.aggType, bound, start, FeedOf(aggs, key, log), m, n)
  {
    FoldStretch(aggs, key, log, bound, start, m, n);
  }

  /** Folding `h[m..n]` remembers the state before its last hit. */
  lemma {:induction false} PrevOfRange(aggs: Aggregators, t: string, bound: nat, start: CacheEntry, h: seq<Event>,
      m: nat, n: nat)
    requires Registered(aggs, t) && m <= n <= |h|
    requires forall k: nat | m <= k <= n :: StateAt(aggs, t, bound, start, h, m, k)
    ensures PrevAt(aggs, t, bound, start, h, m, n)
    decreases n
  {
    if m < n {
      PrevOfRange(aggs, t, bound, start, h, m, n - 1);
      assert StateAt(aggs, t, bound, start, h, m, n - 1);
      PrevOfNext(aggs, t, bound, start, h, m, n - 1);
    } else {
      PrevOfNone(aggs, t, bound, start, h, m);
    }
  }

  lemma {:induction false} PrevOfNone(aggs: Aggregators, t: string, bound: nat, start: CacheEntry, h: seq<Event>,
      m: nat)
    requires Registered(aggs, t) && m <= |h|
    ensures PrevAt(aggs, t, bound, start, h, m, m)
  {
    assert h[m..m] == [];
  }

  /** The state before the last hit is remembered up to `i`. */
  ghost predicate PrevAt(aggs: Aggregators, t: string, bound: nat, start: CacheEntry, h: seq<Event>, m: nat, i: nat)
    requires Registered(aggs, t) && m <= i <= |h|
  {
    FoldMerged(aggs, t, bound, start, h[m..i]).prev == FoldBefore(aggs, t, h, LastHit(aggs, t, h, m, i, bound))
  }

  lemma {:induction false} PrevOfNext(aggs: Aggregators, t: string, bound: nat, start: CacheEntry, h: seq<Event>,
      m: nat, i: nat)
    requires Registered(aggs, t) && m <= i < |h|
    requires StateAt(aggs, t, bound, start, h, m, i) && PrevAt(aggs, t, bound, start, h, m, i)
    ensures PrevAt(aggs, t, bound, start, h, m, i + 1)
  {
    FoldMergedSnoc(aggs, t, bound, start, h, m, i);
    PrevOfOne(aggs, t, bound, FoldMerged(aggs, t, bound, start, h[m..i]), h, m, i);
  }

  lemma PrevOfOne(aggs: Aggregators, t: string, bound: nat, f: Progress, h: seq<Event>, m: nat, i: nat)
    requires Registered(aggs, t) && m <= i < |h|
    requires f.entry.state == PrefixFold(aggs, t, h[..i])
    requires f.prev == FoldBefore(aggs, t, h, LastHit(aggs, t, h, m, i, bound))
    ensures FoldOne(aggs, t, bound, f, h[i]).prev == FoldBefore(aggs, t, h, LastHit(aggs, t, h, m, i + 1, bound))
  {
  }

  /** How far the feed is folded when a read starts. */
  function StartReach(aggs: Aggregators, key: Key, log: Log, cached: Option<CacheEntry>, bound: nat): nat
    requires Registered(aggs, key.aggType)
  {
    Reach(FeedOf(aggs, key, log), StartOf(aggs, key.aggType, cached, bound).foldedTo)
  }

  /** What the read reports as `prev`: the fold before the last of the
      aggregate's facts at the bound that it folded, or else the result. */
  lemma PrevIsBeforeLastHit(aggs: Aggregators, key: Key, log: Log, views: seq<Log>, cached: Option<CacheEntry>,
      bound: nat)
    requires WellFormed(log) && Registered(aggs, key.aggType) && |Streams(aggs, key.aggType)| <= |views|
    requires ViewsOk(log, views, bound) && CachedOk(aggs, key, log, cached)
    ensures var feed, lo := FeedOf(aggs, key, log), StartReach(aggs, key, log, cached, bound);
            && lo <= Reach(feed, bound)
            && var last := LastHit(aggs, key.aggType, feed, lo, Reach(feed, bound), bound);
               var before := FoldBefore(aggs, key.aggType, feed, last);
               Read(aggs, key, views, cached, bound).prev
               == if before.Some? then before.value else ColdFold(aggs, key, log, bound)
  {
    var start := StartOf(aggs, key.aggType, cached, bound);
    StartIsOk(aggs, key, log, cached, bound);
    PrevFromStart(aggs, key, log, views, start, bound);
    FoldFromStart(aggs, key, log, views, start, bound);
  }

  lemma PrevFromStart(aggs: Aggregators, key: Key, log: Log, views: seq<Log>, start: CacheEntry, bound: nat)
    requires WellFormed(log) && |Streams(aggs, key.aggType)| <= |views| && ViewsOk(log, views, bound)
    requires start.foldedTo <= bound
    requires EntryAt(aggs, key, Behind(aggs, key, log, start.foldedTo), start)
    ensures var feed := FeedOf(aggs, key, log);
            var lo, hi := Reach(feed, start.foldedTo), Reach(feed, bound);
            && lo <= hi
            && FoldMerged(aggs, key.aggType, bound, start, Merged(aggs, key, views, start, bound)).prev
               == FoldBefore(aggs, key.aggType, feed, LastHit(aggs, key.aggType, feed, lo, hi, bound))
  {
    var feed := FeedOf(aggs, key, log);
    MergedIsBetween(aggs, key, log, views, start, bound);
    ReachMonotone(feed, start.foldedTo, bound);
    var m, n := Reach(feed, start.foldedTo), Reach(feed, bound);
    forall k: nat | m <= k <= n ensures StateAt(aggs, key.aggType, bound, start, feed, m, k) {
      StatesAgree(aggs, key, log, bound, start, m, k);
    }
    PrevOfRange(aggs, key.aggType, bound, start, feed, m, n);
  }

  // ── Against the documented value ──────────────────────────────────

  /** The aggregate's facts at the bound. */
  ghost function FactsAtBound(aggs: Aggregators, key: Key, log: Log, bound: nat): nat
    requires bound > 0
  {
    var feed := FeedOf(aggs, key, log);
    var lo, hi := Reach(feed, bound - 1), Reach(feed, bound);
    ReachMonotone(feed, bound - 1, bound);
    Matches(aggs, key.aggType, feed[lo..hi])
  }

  /** Events past the documented cut and up to the bound sit at the bound. */
  lemma AtBound(h: seq<Event>, bound: nat, j: nat)
    requires Ordered(h) && 0 < bound && Reach(h, bound - 1) <= j < Reach(h, bound)
    ensures h[j].position == bound
  {
  }

  /** The facts from the last hit on, and those before it, among the facts at
      the bound. */
  lemma HitsAreCounted(aggs: Aggregators, t: string, h: seq<Event>, lo: nat, bound: nat)
    requires Ordered(h) && 0 < bound && lo <= Reach(h, bound - 1) <= Reach(h, bound)
    ensures var d, n := Reach(h, bound - 1), Reach(h, bound);
            var i := LastHit(aggs, t, h, lo, n, bound);
            && (i.None? <==> Matches(aggs, t, h[d..n]) == 0)
            && (i.Some? ==> d <= i.value && Matches(aggs, t, h[d..i.value]) == Matches(aggs, t, h[d..n]) - 1)
  {
    var d, n := Reach(h, bound - 1), Reach(h, bound);
    var i := LastHit(aggs, t, h, lo, n, bound);
    forall j | d <= j < n ensures h[j].position == bound {
      AtBound(h, bound, j);
    }
    NoMatches(aggs, t, h, d, n);
    if i.Some? {
      LastCounts(aggs, t, h, d, i.value, n);
    }
  }

  lemma {:induction false} LastCounts(aggs: Aggregators, t: string, h: seq<Event>, d: nat, i: nat, n: nat)
    requires d <= i < n <= |h| && Matching(aggs, t, h[i].kind).Some?
    requires forall j | i < j < n :: Matching(aggs, t, h[j].kind).None?
    ensures Matches(aggs, t, h[d..n]) == Matches(aggs, t, h[d..i]) + 1
    decreases n
  {
    assert h[d..n][..n - 1 - d] == h[d..n - 1];
    if i < n - 1 { LastCounts(aggs, t, h, d, i, n - 1); }
  }

  /** Where the documented `prev` is what the read reports. */
  ghost predicate PrevHolds(aggs: Aggregators, key: Key, log: Log, cached: Option<CacheEntry>, bound: nat)
    requires Registered(aggs, key.aggType) && bound > 0
  {
    var facts := FactsAtBound(aggs, key, log, bound);
    facts == 0 || (facts == 1 && StartOf(aggs, key.aggType, cached, bound).foldedTo < bound)
  }

  /** With at most one fact at the bound, not yet behind the watermark, `prev`
      is the documented fold of everything below the bound. */
  lemma {:induction false} PrevIsDocumented(aggs: Aggregators, key: Key, log: Log, views: seq<Log>,
      cached: Option<CacheEntry>, bound: nat)
    requires WellFormed(log) && Registered(aggs, key.aggType) && |Streams(aggs, key.aggType)| <= |views|
    requires ViewsOk(log, views, bound) && CachedOk(aggs, key, log, cached) && bound > 0
    requires PrevHolds(aggs, key, log, cached, bound)
    ensures Read(aggs, key, views, cached, bound).prev == ColdFold(aggs, key, log, bound - 1)
  {
    PrevIsBeforeLastHit(aggs, key, log, views, cached, bound);
    FeedOrdered(log, Streams(aggs, key.aggType), key.id);
    var start := StartOf(aggs, key.aggType, cached, bound);
    LastHitIsDocumented(aggs, key.aggType, FeedOf(aggs, key, log), start.foldedTo, bound);
  }

  /** The fold before the last hit, if any, is the fold of what lies below the
      bound. */
  lemma {:induction false} LastHitIsDocumented(aggs: Aggregators, t: string, feed: seq<Event>, from: nat, bound: nat)
    requires Registered(aggs, t) && Ordered(feed) && from <= bound && bound > 0
    requires Reach(feed, bound - 1) <= Reach(feed, bound) && Reach(feed, from) <= Reach(feed, bound)
    requires var facts := Matches(aggs, t, feed[Reach(feed, bound - 1)..Reach(feed, bound)]);
             facts == 0 || (facts == 1 && from < bound)
    ensures var last := LastHit(aggs, t, feed, Reach(feed, from), Reach(feed, bound), bound);
            var before := FoldBefore(aggs, t, feed, last);
            (if before.Some? then before.value else PrefixFold(aggs, t, UpTo(feed, bound)))
            == PrefixFold(aggs, t, UpTo(feed, bound - 1))
  {
    var lo, d, n := Reach(feed, from), Reach(feed, bound - 1), Reach(feed, bound);
    if from < bound {
      ReachMonotone(feed, from, bound - 1);
      HitsAreCounted(aggs, t, feed, lo, bound);
      var i := LastHit(aggs, t, feed, lo, n, bound);
      FoldsAgree(aggs, t, feed, d, if i.None? then n else i.value);
    } else {
      FoldsAgree(aggs, t, feed, d, n);
    }
  }

  /** The condition is exact: for an aggregate that counts its folds, a read
      that does not meet it reports something other than the documented fold —
      a warm re-read at the same bound reports the result itself, and a batch
      of several facts at the bound all but its last. */
  lemma PrevIsDocumentedExactly(aggs: Aggregators, key: Key, log: Log, views: seq<Log>, cached: Option<CacheEntry>,
      bound: nat, size: State -> nat)
    requires WellFormed(log) && Registered(aggs, key.aggType) && |Streams(aggs, key.aggType)| <= |views|
    requires ViewsOk(log, views, bound) && CachedOk(aggs, key, log, cached) && bound > 0
    requires CountsFolds(aggs, key.aggType, size)
    ensures PrevHolds(aggs, key, log, cached, bound)
            <==> Read(aggs, key, views, cached, bound).prev == ColdFold(aggs, key, log, bound - 1)
  {
    if PrevHolds(aggs, key, log, cached, bound) {
      PrevIsDocumented(aggs, key, log, views, cached, bound);
    } else {
      PrevDiffers(aggs, key, log, views, cached, bound, size);
    }
  }

  lemma PrevDiffers(aggs: Aggregators, key: Key, log: Log, views: seq<Log>, cached: Option<CacheEntry>, bound: nat,
      size: State -> nat)
    requires WellFormed(log) && Registered(aggs, key.aggType) && |Streams(aggs, key.aggType)| <= |views|
    requires ViewsOk(log, views, bound) && CachedOk(aggs, key, log, cached) && bound > 0
    requires CountsFolds(aggs, key.aggType, size) && !PrevHolds(aggs, key, log, cached, bound)
    ensures Read(aggs, key, views, cached, bound).prev != ColdFold(aggs, key, log, bound - 1)
  {
    var t, feed := key.aggType, FeedOf(aggs, key, log);
    PrevIsBeforeLastHit(aggs, key, log, views, cached, bound);
    FeedOrdered(log, Streams(aggs, t), key.id);
    var lo, d, n := StartReach(aggs, key, log, cached, bound), Reach(feed, bound - 1), Reach(feed, bound);
    ReachMonotone(feed, bound - 1, bound);
    CountingFold(aggs, t, size, feed[..d]);
    if StartOf(aggs, t, cached, bound).foldedTo < bound {
      ReachMonotone(feed, StartOf(aggs, t, cached, bound).foldedTo, bound - 1);
      HitsAreCounted(aggs, t, feed, lo, bound);
      var i := LastHit(aggs, t, feed, lo, n, bound).value;
      CountingFold(aggs, t, size, feed[..i]);
      MatchesSplit(aggs, t, feed, d, i);
    } else {
      assert LastHit(aggs, t, feed, n, n, bound).None?;
      CountingFold(aggs, t, size, feed[..n]);
      MatchesSplit(aggs, t, feed, d, n);
    }
  }

  // ── Two reads that report something else ──────────────────────────

  /** The streams and aggregators of a toggle: one of each. */
  lemma {:induction false} ToggleReads(x: Scene)
    requires x.Ok()
    ensures Registered(x.Aggs(), x.t) && Initial(x.Aggs(), x.t) == x.a && Streams(x.Aggs(), x.t) == [x.subject]
    ensures Matching(x.Aggs(), x.t, x.kind) == Some(x.Aggs()[0])
  {
    var aggs := x.Aggs();
    assert aggs[..0] == [] && Streams(aggs[..0], x.t) == [];
  }

  /** What a read makes of its one stream's wanted events. */
  lemma {:induction false} ToggleMerge(x: Scene, log: Log, start: CacheEntry, bound: nat)
    requires x.Ok() && Stream(log, x.Home()) == log
    requires |Streams(x.Aggs(), x.t)| <= 1
    ensures var tail := ReadStream(log, x.Home(), TailOf(start.tails, x.subject));
            Merged(x.Aggs(), x.Key(), [log], start, bound) == SortByPosition(Wanted(tail, start.foldedTo, bound))
  {
    ToggleReads(x);
    var tail := ReadStream(log, x.Home(), TailOf(start.tails, x.subject));
    assert Gather([log], [x.subject], 0, x.id, start, bound) == [];
    assert Gather([log], [x.subject], 1, x.id, start, bound) == Wanted(tail, start.foldedTo, bound);
  }

  lemma {:induction false} NothingBelow(x: Scene, log: Log)
    requires x.Ok() && forall k | 0 <= k < |log| :: log[k].position > 0
    ensures Registered(x.Aggs(), x.t) && ColdFold(x.Aggs(), x.Key(), log, 0) == x.a
  {
    ToggleReads(x);
    var feed := FeedOf(x.Aggs(), x.Key(), log);
    if feed != [] { FeedMember(log, Streams(x.Aggs(), x.t), x.id, feed[0]); }
    assert UpTo(feed, 0) == [];
  }

  lemma {:induction false} FirstRead(x: Scene)
    requires x.Ok()
    ensures |Streams(x.Aggs(), x.t)| == 1 && Registered(x.Aggs(), x.t)
    ensures Read(x.Aggs(), x.Key(), [x.Facts(1)], None, 1)
         == ReadResult(x.a, x.b, Some(CacheEntry(x.b, 1, map[x.subject := 0])))
  {
    var log := x.Facts(1);
    assert log == [x.Fact(0)];
    SceneStream(x, 1);
    ToggleReads(x);
    var cold := ColdEntry(x.Aggs(), x.t);
    ToggleMerge(x, log, cold, 1);
    OneWanted(x.Fact(0), 0, 1);
    assert ReadStream(log, x.Home(), None) == [x.Fact(0)];
    OneFolds(x, cold, x.Fact(0), 1);
    assert map[][x.subject := 0] == map[x.subject := 0];
  }

  lemma {:induction false} SecondRead(x: Scene, entry: CacheEntry)
    requires x.Ok() && entry == CacheEntry(x.b, 1, map[x.subject := 0])
    ensures |Streams(x.Aggs(), x.t)| == 1 && Registered(x.Aggs(), x.t)
    ensures Read(x.Aggs(), x.Key(), [x.Facts(1)], Some(entry), 1) == ReadResult(x.b, x.b, Some(entry))
  {
    var log := x.Facts(1);
    SceneStream(x, 1);
    ToggleReads(x);
    ToggleMerge(x, log, entry, 1);
    assert ReadStream(log, x.Home(), Some(0)) == [];
    assert Merged(x.Aggs(), x.Key(), [log], entry, 1) == [];
  }

  /** One fact at position 1. A first read at bound 1 reports the documented
      `prev`; the same read again reports the result itself. */
  lemma {:induction false} WarmRereadReportsResult(x: Scene)
    requires x.Ok()
    ensures |Streams(x.Aggs(), x.t)| == 1 && Registered(x.Aggs(), x.t)
    ensures var log := x.Facts(1);
            var first := Read(x.Aggs(), x.Key(), [log], None, 1);
            var again := Read(x.Aggs(), x.Key(), [log], first.cached, 1);
            && first.prev == ColdFold(x.Aggs(), x.Key(), log, 0) && first.curr == again.curr == x.b
            && again.prev == x.b != ColdFold(x.Aggs(), x.Key(), log, 0)
  {
    FirstRead(x);
    SecondRead(x, CacheEntry(x.b, 1, map[x.subject := 0]));
    NothingBelow(x, x.Facts(1));
  }

  lemma {:induction false} OneWanted(e: Event, foldedTo: nat, bound: nat)
    requires foldedTo < e.position <= bound
    ensures Wanted([e], foldedTo, bound) == [e] && SortByPosition([e]) == [e]
  {
    assert [e][..0] == [] && Wanted([e][..0], foldedTo, bound) == [] && SortByPosition([e][..0]) == [];
  }

  lemma {:induction false} OneFolds(x: Scene, start: CacheEntry, e: Event, bound: nat)
    requires x.Ok() && e.kind == x.kind && e.position == bound && e.stream == x.Home()
    ensures var f := FoldMerged(x.Aggs(), x.t, bound, start, [e]);
            f.prev == Some(start.state)
            && f.entry == CacheEntry(x.Flip(start.state), bound, start.tails[x.subject := e.revision])
  {
    ToggleReads(x);
    assert [e][..0] == [] && FoldMerged(x.Aggs(), x.t, bound, start, [e][..0]) == Progress(start, None);
  }

  /** Two facts of one batch, both at position 1. */
  function Batch(x: Scene): Log {
    [x.Fact(0), x.Fact(1).(position := 1)]
  }

  /** A cold read at the position of a batch of two reports the fold before the
      second fact, not the one before the batch. */
  lemma {:induction false} BatchReportsItsMiddle(x: Scene)
    requires x.Ok()
    ensures WellFormed(Batch(x)) && |Streams(x.Aggs(), x.t)| == 1 && Registered(x.Aggs(), x.t)
    ensures Read(x.Aggs(), x.Key(), [Batch(x)], None, 1).prev == x.b != ColdFold(x.Aggs(), x.Key(), Batch(x), 0)
  {
    var log, first, second := Batch(x), x.Fact(0), x.Fact(1).(position := 1);
    BatchIsFormed(x);
    ToggleReads(x);
    NothingBelow(x, log);
    var cold := ColdEntry(x.Aggs(), x.t);
    ToggleMerge(x, log, cold, 1);
    assert ReadStream(log, x.Home(), None) == log;
    OneWanted(first, 0, 1);
    assert log[..1] == [first];
    assert Wanted(log, 0, 1) == [first] + [second];
    assert SortByPosition(log) == Insert([first], second) == [first] + [second];
    OneFolds(x, cold, first, 1);
    assert FoldMerged(x.Aggs(), x.t, 1, cold, log)
        == FoldOne(x.Aggs(), x.t, 1, FoldMerged(x.Aggs(), x.t, 1, cold, [first]), second);
  }

  lemma {:induction false} BatchIsFormed(x: Scene)
    requires x.Ok()
    ensures WellFormed(Batch(x)) && Stream(Batch(x), x.Home()) == Batch(x)
  {
    var log := Batch(x);
    assert log[..0] == [] && log[..1] == [x.Fact(0)] && [x.Fact(0)][..0] == [];
    assert Stream([x.Fact(0)], x.Home()) == [x.Fact(0)];
    assert Stream(log, x.Home()) == [x.Fact(0)] + [log[1]];
    assert DenseAt(log, 0) && DenseAt(log, 1) && Follows(log[0], log[1]);
  }
}
