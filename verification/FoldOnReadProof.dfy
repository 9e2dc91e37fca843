/** `fold_bounded` refines the cold fold of the log, through any sequence of
    reads and appends, and what it reports as the state before its bound. */
module FoldOnReadProof {
  import opened EventLog
  import opened Folding
  import opened FoldOnRead

  // ── Ordered sequences ─────────────────────────────────────────────

  ghost predicate Ordered(h: seq<Event>) {
    forall i, j | 0 <= i < j < |h| :: Before(h[i], h[j])
  }

  /** Facts that share a position already stand in revision order. */
  ghost predicate TiesOrdered(h: seq<Event>) {
    forall i, j | 0 <= i < j < |h| && h[i].position == h[j].position :: h[i].revision < h[j].revision
  }

  lemma HeadIsMember(h: seq<Event>)
    requires h != []
    ensures h[0] in h
  {
  }

  /** An ordered sequence is determined by its elements. */
  lemma {:induction false} OrderedUnique(a: seq<Event>, b: seq<Event>)
    requires Ordered(a) && Ordered(b) && forall e :: e in a <==> e in b
    ensures a == b
    decreases |a|
  {
    if a == [] {
      if b != [] { HeadIsMember(b); }
    } else {
      assert a[0] in b && b != [];
      assert b[0] in a;
      var i :| 0 <= i < |b| && b[i] == a[0];
      var j :| 0 <= j < |a| && a[j] == b[0];
      assert a[0] == b[0];
      forall e ensures e in a[1..] <==> e in b[1..] {
        SplitMembership(a, e);
        SplitMembership(b, e);
      }
      OrderedUnique(a[1..], b[1..]);
      assert a == [a[0]] + a[1..] && b == [b[0]] + b[1..];
    }
  }

  lemma SplitMembership(a: seq<Event>, e: Event)
    requires Ordered(a) && a != []
    ensures e in a[1..] <==> e in a && e != a[0]
  {
  }

  lemma {:induction false} InsertOrders(h: seq<Event>, e: Event)
    requires Ordered(h)
    requires forall x | x in h && x.position == e.position :: x.revision < e.revision
    ensures Ordered(Insert(h, e))
    decreases |h|
  {
    if h != [] && h[|h| - 1].position > e.position {
      var front, last := h[..|h| - 1], h[|h| - 1];
      InsertOrders(front, e);
      var r := Insert(front, e);
      forall i | 0 <= i < |r| ensures Before(r[i], last) {
        assert r[i] in r;
      }
    } else {
      forall i | 0 <= i < |h| ensures Before(h[i], e) {
        assert h[i] in h;
      }
    }
  }

  lemma {:induction false} SortOrders(h: seq<Event>)
    requires TiesOrdered(h)
    ensures Ordered(SortByPosition(h))
  {
    if h != [] {
      SortOrders(h[..|h| - 1]);
      InsertOrders(SortByPosition(h[..|h| - 1]), h[|h| - 1]);
    }
  }

  lemma {:induction false} FeedMember(log: Log, streams: seq<string>, id: Uuid, e: Event)
    ensures e in Feed(log, streams, id) <==> e in log && Feeds(streams, id, e)
  {
    if log != [] {
      FeedMember(log[..|log| - 1], streams, id, e);
      assert log == log[..|log| - 1] + [log[|log| - 1]];
    }
  }

  lemma {:induction false} WantedMember(h: seq<Event>, foldedTo: nat, bound: nat, e: Event)
    ensures e in Wanted(h, foldedTo, bound) <==> e in h && foldedTo < e.position <= bound
  {
    if h != [] {
      WantedMember(h[..|h| - 1], foldedTo, bound, e);
      assert h == h[..|h| - 1] + [h[|h| - 1]];
    }
  }

  lemma {:induction false} FeedOrdered(log: Log, streams: seq<string>, id: Uuid)
    requires WellFormed(log)
    ensures Ordered(Feed(log, streams, id))
  {
    if log != [] {
      var n := |log| - 1;
      WellFormedPrefix(log, n);
      FeedOrdered(log[..n], streams, id);
      forall x | x in Feed(log[..n], streams, id) ensures Before(x, log[n]) {
        FeedMember(log[..n], streams, id, x);
        var i :| 0 <= i < n && log[..n][i] == x;
        LogOrder(log, i, n);
      }
    }
  }

  lemma {:induction false} StreamOrdered(log: Log, s: StreamId)
    requires WellFormed(log)
    ensures Ordered(Stream(log, s))
    ensures forall e :: e in Stream(log, s) <==> e in log && e.stream == s
  {
    if log != [] {
      var n := |log| - 1;
      WellFormedPrefix(log, n);
      StreamOrdered(log[..n], s);
      forall x | x in Stream(log[..n], s) ensures Before(x, log[n]) {
        var i :| 0 <= i < n && log[..n][i] == x;
        LogOrder(log, i, n);
      }
      assert log == log[..n] + [log[n]];
    }
  }

  /** The feed keeps each feeding stream whole. */
  lemma {:induction false} FeedKeepsStreams(log: Log, streams: seq<string>, id: Uuid, s: string)
    requires s in streams
    ensures Stream(Feed(log, streams, id), StreamId(s, id)) == Stream(log, StreamId(s, id))
  {
    if log != [] {
      var n := |log| - 1;
      FeedKeepsStreams(log[..n], streams, id, s);
      var front := Feed(log[..n], streams, id);
      assert (front + [log[n]])[..|front|] == front;
    }
  }

  lemma {:induction false} FeedOfAppend(a: Log, b: Log, streams: seq<string>, id: Uuid)
    ensures Feed(a + b, streams, id) == Feed(a, streams, id) + Feed(b, streams, id)
    decreases |b|
  {
    if b == [] {
      assert a + b == a;
    } else {
      assert (a + b)[..|a + b| - 1] == a + b[..|b| - 1];
      FeedOfAppend(a, b[..|b| - 1], streams, id);
    }
  }

  lemma ReachMonotone(h: seq<Event>, p: nat, q: nat)
    requires p <= q
    ensures Reach(h, p) <= Reach(h, q)
  {
  }

  /** The feeding events in `(p, q]`, in log order. */
  ghost function Between(h: seq<Event>, p: nat, q: nat): seq<Event>
    requires Ordered(h) && p <= q
  {
    ReachMonotone(h, p, q);
    h[Reach(h, p)..Reach(h, q)]
  }

  lemma BetweenMember(h: seq<Event>, p: nat, q: nat, e: Event)
    requires Ordered(h) && p <= q
    ensures e in Between(h, p, q) <==> e in h && p < e.position <= q
  {
  }

  // ── What a read gathers ───────────────────────────────────────────

  /** Each stream is read from a log that has only grown past the bound. */
  ghost predicate ViewOk(log: Log, view: Log, bound: nat) {
    && log <= view && WellFormed(view)
    && forall i: nat | |log| <= i < |view| :: view[i].position > bound
  }

  ghost predicate ViewsOk(log: Log, views: seq<Log>, bound: nat) {
    forall k | 0 <= k < |views| :: ViewOk(log, views[k], bound)
  }

  /** At or below the bound a view's streams are the log's. */
  lemma ViewStream(log: Log, view: Log, bound: nat, s: StreamId, e: Event)
    requires WellFormed(log) && ViewOk(log, view, bound) && e.position <= bound
    ensures e in Stream(view, s) <==> e in log && e.stream == s
  {
    StreamOrdered(view, s);
    if e in view {
      var i :| 0 <= i < |view| && view[i] == e;
      assert i < |log| && log[i] == e;
    }
  }

  ghost predicate TailOk(h: seq<Event>, tails: map<string, nat>, s: string, id: Uuid) {
    var n := |Stream(h, StreamId(s, id))|;
    (s in tails <==> 0 < n) && (s in tails ==> tails[s] == n - 1)
  }

  /** The entry is the fold of `h`, with every stream's tail in `h`. */
  ghost predicate EntryAt(aggs: Aggregators, key: Key, h: seq<Event>, entry: CacheEntry) {
    && Registered(aggs, key.aggType)
    && entry.state == PrefixFold(aggs, key.aggType, h)
    && forall s :: TailOk(h, entry.tails, s, key.id)
  }

  /** The feeding events a reader starting from `foldedTo` has behind it. */
  ghost function Behind(aggs: Aggregators, key: Key, log: Log, foldedTo: nat): seq<Event> {
    UpTo(FeedOf(aggs, key, log), foldedTo)
  }

  lemma PrefixOfFeedStream(log: Log, streams: seq<string>, id: Uuid, p: nat, s: string)
    requires WellFormed(log) && s in streams
    ensures var h, sid := UpTo(Feed(log, streams, id), p), StreamId(s, id);
            Stream(h, sid) <= Stream(log, sid) && forall e | e in Stream(h, sid) :: e.position <= p
  {
    var feed, sid := Feed(log, streams, id), StreamId(s, id);
    var h := UpTo(feed, p);
    FeedKeepsStreams(log, streams, id, s);
    StreamGrows(h, feed, sid);
    forall e | e in Stream(h, sid) ensures e.position <= p {
      var r :| 0 <= r < |Stream(h, sid)| && Stream(h, sid)[r] == e;
      var i := StreamInLog(h, sid, r);
      assert h[i] in h;
    }
  }

  /** The stored tail only skips events at or below the watermark. */
  lemma TailSkipsFolded(log: Log, view: Log, streams: seq<string>, s: string, id: Uuid, start: CacheEntry, bound: nat,
      e: Event)
    requires WellFormed(log) && ViewOk(log, view, bound) && s in streams
    requires TailOk(UpTo(Feed(log, streams, id), start.foldedTo), start.tails, s, id)
    ensures var sid := StreamId(s, id);
            (e in Wanted(ReadStream(view, sid, TailOf(start.tails, s)), start.foldedTo, bound)
             <==> e in Stream(view, sid) && start.foldedTo < e.position <= bound)
  {
    var sid := StreamId(s, id);
    var h := Stream(UpTo(Feed(log, streams, id), start.foldedTo), sid);
    var all := Stream(view, sid);
    PrefixOfFeedStream(log, streams, id, start.foldedTo, s);
    StreamGrows(log, view, sid);
    assert ReadStream(view, sid, TailOf(start.tails, s)) == all[|h|..];
    WantedMember(all[|h|..], start.foldedTo, bound, e);
    if start.foldedTo < e.position { DropMember(all, h, start.foldedTo, e); }
  }

  lemma DropMember(all: seq<Event>, h: seq<Event>, p: nat, e: Event)
    requires h <= all && (forall x | x in h :: x.position <= p) && p < e.position
    ensures e in all[|h|..] <==> e in all
  {
  }

  ghost predicate TailsOk(log: Log, streams: seq<string>, id: Uuid, start: CacheEntry) {
    forall s :: TailOk(UpTo(Feed(log, streams, id), start.foldedTo), start.tails, s, id)
  }

  /** One stream's read: its events of the log in `(foldedTo, bound]`. */
  ghost function TailRead(view: Log, s: string, id: Uuid, start: CacheEntry, bound: nat): seq<Event> {
    Wanted(ReadStream(view, StreamId(s, id), TailOf(start.tails, s)), start.foldedTo, bound)
  }

  lemma TailReadMember(log: Log, view: Log, streams: seq<string>, s: string, id: Uuid, start: CacheEntry, bound: nat,
      e: Event)
    requires WellFormed(log) && ViewOk(log, view, bound) && s in streams && TailsOk(log, streams, id, start)
    ensures e in TailRead(view, s, id, start, bound)
            <==> e in log && e.stream == StreamId(s, id) && start.foldedTo < e.position <= bound
  {
    assert TailOk(UpTo(Feed(log, streams, id), start.foldedTo), start.tails, s, id);
    TailSkipsFolded(log, view, streams, s, id, start, bound, e);
    if e.position <= bound { ViewStream(log, view, bound, StreamId(s, id), e); }
  }

  lemma FeedsSnoc(streams: seq<string>, s: string, id: Uuid, e: Event)
    ensures Feeds(streams + [s], id, e) <==> Feeds(streams, id, e) || e.stream == StreamId(s, id)
  {
  }

  /** A gathered event: a feeding event of the log in `(foldedTo, bound]`. */
  lemma {:induction false} GatherMember(log: Log, views: seq<Log>, streams: seq<string>, n: nat, id: Uuid,
      start: CacheEntry, bound: nat, e: Event)
    requires WellFormed(log) && n <= |streams| <= |views| && ViewsOk(log, views, bound)
    requires TailsOk(log, streams, id, start)
    ensures e in Gather(views, streams, n, id, start, bound)
            <==> e in log && Feeds(streams[..n], id, e) && start.foldedTo < e.position <= bound
  {
    if n > 0 {
      var s := streams[n - 1];
      GatherMember(log, views, streams, n - 1, id, start, bound, e);
      assert ViewOk(log, views[n - 1], bound) && s in streams;
      TailReadMember(log, views[n - 1], streams, s, id, start, bound, e);
      assert streams[..n] == streams[..n - 1] + [s];
      FeedsSnoc(streams[..n - 1], s, id, e);
      assert Gather(views, streams, n, id, start, bound)
          == Gather(views, streams, n - 1, id, start, bound) + TailRead(views[n - 1], s, id, start, bound);
    }
  }

  lemma {:induction false} WantedOrdered(h: seq<Event>, foldedTo: nat, bound: nat)
    requires Ordered(h)
    ensures Ordered(Wanted(h, foldedTo, bound))
  {
    if h != [] {
      var front := h[..|h| - 1];
      WantedOrdered(front, foldedTo, bound);
      var r := Wanted(front, foldedTo, bound);
      forall i | 0 <= i < |r| ensures Before(r[i], h[|h| - 1]) {
        WantedMember(front, foldedTo, bound, r[i]);
        var j :| 0 <= j < |front| && front[j] == r[i];
        assert h[j] == r[i];
      }
    }
  }

  lemma SharedPosition(log: Log, x: Event, y: Event)
    requires WellFormed(log) && x in log && y in log && x.position == y.position
    ensures x.stream == y.stream
  {
    var i :| 0 <= i < |log| && log[i] == x;
    var j :| 0 <= j < |log| && log[j] == y;
    if i < j { assert Follows(log[i], log[j]); } else if j < i { assert Follows(log[j], log[i]); }
  }

  /** Facts that share a position come from one stream, hence one read, which
      returns them in revision order: a stable sort keeps log order. */
  lemma {:induction false} GatherTies(log: Log, views: seq<Log>, streams: seq<string>, n: nat, id: Uuid,
      start: CacheEntry, bound: nat)
    requires WellFormed(log) && n <= |streams| <= |views| && ViewsOk(log, views, bound)
    requires TailsOk(log, streams, id, start)
    requires forall i, j | 0 <= i < j < |streams| :: streams[i] != streams[j]
    ensures TiesOrdered(Gather(views, streams, n, id, start, bound))
  {
    if n > 0 {
      var front := Gather(views, streams, n - 1, id, start, bound);
      var all := Gather(views, streams, n, id, start, bound);
      var sid := StreamId(streams[n - 1], id);
      var tail := TailRead(views[n - 1], streams[n - 1], id, start, bound);
      GatherTies(log, views, streams, n - 1, id, start, bound);
      assert ViewOk(log, views[n - 1], bound);
      StreamOrdered(views[n - 1], sid);
      WantedOrdered(ReadStream(views[n - 1], sid, TailOf(start.tails, streams[n - 1])), start.foldedTo, bound);
      forall x, y | x in front && y in tail ensures x.position != y.position {
        CrossTies(log, views, streams, n, id, start, bound, x, y);
      }
      TiesJoin(front, tail);
    }
  }

  lemma CrossTies(log: Log, views: seq<Log>, streams: seq<string>, n: nat, id: Uuid, start: CacheEntry, bound: nat,
      x: Event, y: Event)
    requires WellFormed(log) && 0 < n <= |streams| <= |views| && ViewsOk(log, views, bound)
    requires TailsOk(log, streams, id, start)
    requires forall i, j | 0 <= i < j < |streams| :: streams[i] != streams[j]
    requires x in Gather(views, streams, n - 1, id, start, bound)
    requires y in TailRead(views[n - 1], streams[n - 1], id, start, bound)
    ensures x.position != y.position
  {
    GatherMember(log, views, streams, n - 1, id, start, bound, x);
    assert ViewOk(log, views[n - 1], bound) && streams[n - 1] in streams;
    TailReadMember(log, views[n - 1], streams, streams[n - 1], id, start, bound, y);
    if x.position == y.position { SharedPosition(log, x, y); }
  }

  lemma TiesJoin(a: seq<Event>, b: seq<Event>)
    requires TiesOrdered(a) && Ordered(b) && forall x, y | x in a && y in b :: x.position != y.position
    ensures TiesOrdered(a + b)
  {
  }

  lemma BetweenOrdered(h: seq<Event>, p: nat, q: nat)
    requires Ordered(h) && p <= q
    ensures Ordered(Between(h, p, q))
  {
  }

  lemma MergedMember(aggs: Aggregators, key: Key, log: Log, views: seq<Log>, start: CacheEntry, bound: nat, e: Event)
    requires WellFormed(log) && |Streams(aggs, key.aggType)| <= |views| && ViewsOk(log, views, bound)
    requires start.foldedTo <= bound && TailsOk(log, Streams(aggs, key.aggType), key.id, start)
    requires Ordered(FeedOf(aggs, key, log))
    ensures e in Merged(aggs, key, views, start, bound) <==> e in Between(FeedOf(aggs, key, log), start.foldedTo, bound)
  {
    var streams := Streams(aggs, key.aggType);
    GatherMember(log, views, streams, |streams|, key.id, start, bound, e);
    BetweenMember(FeedOf(aggs, key, log), start.foldedTo, bound, e);
    FeedMember(log, streams, key.id, e);
    assert streams[..|streams|] == streams;
  }

  /** The merge is the stretch of the feed between watermark and bound, in log
      order across streams. */
  lemma MergedIsBetween(aggs: Aggregators, key: Key, log: Log, views: seq<Log>, start: CacheEntry, bound: nat)
    requires WellFormed(log) && |Streams(aggs, key.aggType)| <= |views| && ViewsOk(log, views, bound)
    requires start.foldedTo <= bound && TailsOk(log, Streams(aggs, key.aggType), key.id, start)
    ensures Ordered(FeedOf(aggs, key, log))
    ensures Merged(aggs, key, views, start, bound) == Between(FeedOf(aggs, key, log), start.foldedTo, bound)
  {
    var streams, feed := Streams(aggs, key.aggType), FeedOf(aggs, key, log);
    FeedOrdered(log, streams, key.id);
    GatherTies(log, views, streams, |streams|, key.id, start, bound);
    SortOrders(Gather(views, streams, |streams|, key.id, start, bound));
    BetweenOrdered(feed, start.foldedTo, bound);
    var merged, between := Merged(aggs, key, views, start, bound), Between(feed, start.foldedTo, bound);
    forall e ensures e in merged <==> e in between {
      MergedMember(aggs, key, log, views, start, bound, e);
    }
    OrderedUnique(merged, between);
  }
}
