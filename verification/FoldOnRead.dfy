/** Position-bounded fold-on-read with an incremental cache. */
module FoldOnRead {
  import opened JsonValue
  import opened EventLog
  import opened Folding

  /** The cached fold of everything up to `foldedTo`, with the last revision
      read from each feeding stream (by category). */
  datatype CacheEntry = CacheEntry(state: State, foldedTo: nat, tails: map<string, nat>)

  // ── The cold fold, the reference ──────────────────────────────────

  /** The subject histories that feed an aggregate type, as sorted and
      deduplicated stream categories. */
  function Streams(aggs: Aggregators, t: string): (r: seq<string>)
    ensures forall i, j | 0 <= i < j < |r| :: r[i] != r[j]
  {
    if aggs == [] then []
    else
      var front := Streams(aggs[..|aggs| - 1], t);
      var last := aggs[|aggs| - 1];
      if last.aggType == t && last.eventSubject !in front then front + [last.eventSubject] else front
  }

  predicate Feeds(streams: seq<string>, id: Uuid, e: Event) {
    e.stream.subject == id && e.stream.category in streams
  }

  /** The feeding events of a log, in log order across streams. */
  function Feed(log: Log, streams: seq<string>, id: Uuid): seq<Event> {
    if log == [] then []
    else
      var front := Feed(log[..|log| - 1], streams, id);
      if Feeds(streams, id, log[|log| - 1]) then front + [log[|log| - 1]] else front
  }

  /** How many leading events lie at or below a position. */
  function Reach(h: seq<Event>, p: nat): (n: nat)
    ensures n <= |h|
    ensures forall i | 0 <= i < n :: h[i].position <= p
    ensures n < |h| ==> h[n].position > p
  {
    if h == [] || h[0].position > p then 0 else 1 + Reach(h[1..], p)
  }

  function UpTo(h: seq<Event>, p: nat): seq<Event> {
    h[..Reach(h, p)]
  }

  function FeedOf(aggs: Aggregators, key: Key, log: Log): seq<Event> {
    Feed(log, Streams(aggs, key.aggType), key.id)
  }

  /** `fold(events <= bound)`, straight from the log. */
  function ColdFold(aggs: Aggregators, key: Key, log: Log, bound: nat): State
    requires Registered(aggs, key.aggType)
  {
    PrefixFold(aggs, key.aggType, UpTo(FeedOf(aggs, key, log), bound))
  }

  // ── The read ──────────────────────────────────────────────────────

  /** One stream's unfolded tail, bounded. */
  function Wanted(events: seq<Event>, foldedTo: nat, bound: nat): seq<Event> {
    if events == [] then []
    else
      var front := Wanted(events[..|events| - 1], foldedTo, bound);
      var e := events[|events| - 1];
      if e.position <= bound && e.position > foldedTo then front + [e] else front
  }

  function TailOf(tails: map<string, nat>, s: string): Option<nat> {
    if s in tails then Some(tails[s]) else None
  }

  /** The tails of the first `n` streams, each read from the log as that read
      found it. */
  function Gather(views: seq<Log>, streams: seq<string>, n: nat, id: Uuid, entry: CacheEntry, bound: nat): seq<Event>
    requires n <= |streams| <= |views|
  {
    if n == 0 then []
    else
      Gather(views, streams, n - 1, id, entry, bound)
      + Wanted(ReadStream(views[n - 1], StreamId(streams[n - 1], id), TailOf(entry.tails, streams[n - 1])),
               entry.foldedTo, bound)
  }

  /** Stable insertion by position. */
  function Insert(h: seq<Event>, e: Event): (r: seq<Event>)
    ensures forall x :: x in r <==> x in h || x == e
  {
    if h == [] || h[|h| - 1].position <= e.position then h + [e]
    else Insert(h[..|h| - 1], e) + [h[|h| - 1]]
  }

  function SortByPosition(h: seq<Event>): (r: seq<Event>)
    ensures forall x :: x in r <==> x in h
  {
    if h == [] then [] else Insert(SortByPosition(h[..|h| - 1]), h[|h| - 1])
  }

  datatype Progress = Progress(entry: CacheEntry, prev: Option<State>)

  /** One merged event: a foreign kind only moves the tail and watermark. */
  function FoldOne(aggs: Aggregators, t: string, bound: nat, f: Progress, e: Event): Progress {
    var entry := f.entry.(tails := f.entry.tails[e.stream.category := e.revision], foldedTo := e.position);
    match Matching(aggs, t, e.kind)
    case None => f.(entry := entry)
    case Some(a) =>
      Progress(entry.(state := a.apply(f.entry.state, e.payload)),
              if e.position == bound then Some(f.entry.state) else f.prev)
  }

  function FoldMerged(aggs: Aggregators, t: string, bound: nat, entry: CacheEntry, merged: seq<Event>): Progress {
    if merged == [] then Progress(entry, None)
    else FoldOne(aggs, t, bound, FoldMerged(aggs, t, bound, entry, merged[..|merged| - 1]), merged[|merged| - 1])
  }

  function ColdEntry(aggs: Aggregators, t: string): CacheEntry
    requires Registered(aggs, t)
  {
    CacheEntry(Initial(aggs, t), 0, map[])
  }

  /** Where a read starts: from the cached entry unless the bound is below it. */
  function StartOf(aggs: Aggregators, t: string, cached: Option<CacheEntry>, bound: nat): CacheEntry
    requires Registered(aggs, t)
  {
    if cached.Some? && cached.value.foldedTo <= bound then cached.value else ColdEntry(aggs, t)
  }

  function Cacheable(cached: Option<CacheEntry>, bound: nat): bool {
    cached.None? || cached.value.foldedTo <= bound
  }

  function Merged(aggs: Aggregators, key: Key, views: seq<Log>, start: CacheEntry, bound: nat): seq<Event>
    requires |Streams(aggs, key.aggType)| <= |views|
  {
    var streams := Streams(aggs, key.aggType);
    SortByPosition(Gather(views, streams, |streams|, key.id, start, bound))
  }

  datatype ReadResult = ReadResult(prev: State, curr: State, cached: Option<CacheEntry>)

  /** `fold_bounded` on a registered, not custom-keyed aggregate type. */
  function Read(aggs: Aggregators, key: Key, views: seq<Log>, cached: Option<CacheEntry>, bound: nat): ReadResult
    requires Registered(aggs, key.aggType) && |Streams(aggs, key.aggType)| <= |views|
  {
    var start := StartOf(aggs, key.aggType, cached, bound);
    var f := FoldMerged(aggs, key.aggType, bound, start, Merged(aggs, key, views, start, bound));
    ReadResult(if f.prev.Some? then f.prev.value else f.entry.state, f.entry.state,
               if Cacheable(cached, bound) then Some(f.entry) else cached)
  }

  class FoldOnReadCache {
    var entries: map<Key, CacheEntry>

    constructor ()
      ensures entries == map[]
    {
      entries := map[];
    }
  }

  datatype BoundedFold = Unregistered | CustomKey | Folded(prev: State, curr: State)

  function Lookup(entries: map<Key, CacheEntry>, key: Key): Option<CacheEntry> {
    if key in entries then Some(entries[key]) else None
  }

  predicate CustomKeyed(aggs: Aggregators, t: string) {
    aggs != [] && ((aggs[0].aggType == t && aggs[0].customId) || CustomKeyed(aggs[1..], t))
  }

  /** Read each stream's unfolded tail and order the whole by position. The
      log may grow while the streams are read one after another: `views[k]`
      is the log as the `k`th read finds it. */
  method MergeTails(aggs: Aggregators, key: Key, views: seq<Log>, start: CacheEntry,
      bound: nat) returns (merged: seq<Event>)
    requires |Streams(aggs, key.aggType)| <= |views|
    ensures merged == Merged(aggs, key, views, start, bound)
  {
    var streams := Streams(aggs, key.aggType);
    merged := [];
    var k := 0;
    while k < |streams|
      invariant k <= |streams|
      invariant merged == Gather(views, streams, k, key.id, start, bound)
    {
      var events := ReadStream(views[k], StreamId(streams[k], key.id), TailOf(start.tails, streams[k]));
      merged := merged + Wanted(events, start.foldedTo, bound);
      k := k + 1;
    }
    merged := SortByPosition(merged);
  }

  /** Fold the merged tail, tracking the watermarks and the state before the
      last matching event at the bound. */
  method FoldTail(aggs: Aggregators, t: string, bound: nat, start: CacheEntry, merged: seq<Event>) returns (f: Progress)
    ensures f == FoldMerged(aggs, t, bound, start, merged)
  {
    var state, foldedTo := start.state, start.foldedTo;
    var tails: map<string, nat> := start.tails;
    var prev: Option<State> := None;
    var i := 0;
    while i < |merged|
      invariant i <= |merged|
      invariant Progress(CacheEntry(state, foldedTo, tails), prev) == FoldMerged(aggs, t, bound, start, merged[..i])
    {
      var e := merged[i];
      assert merged[..i + 1][..i] == merged[..i];
      var agg := Matching(aggs, t, e.kind);
      if agg.Some? {
        if e.position == bound { prev := Some(state); }
        state := agg.value.apply(state, e.payload);
      }
      tails := tails[e.stream.category := e.revision];
      foldedTo := e.position;
      i := i + 1;
    }
    assert merged[..i] == merged;
    f := Progress(CacheEntry(state, foldedTo, tails), prev);
  }

  lemma PutBack(entries: map<Key, CacheEntry>, key: Key, entry: CacheEntry)
    ensures (entries - {key})[key := entry] == entries[key := entry]
  {
  }

  /** `fold_bounded` */
  method FoldBounded(aggs: Aggregators, key: Key, bound: nat, views: seq<Log>, cache: FoldOnReadCache)
    returns (r: BoundedFold)
    requires |Streams(aggs, key.aggType)| <= |views|
    modifies cache
    ensures r.Unregistered? <==> !Registered(aggs, key.aggType)
    ensures r.CustomKey? <==> Registered(aggs, key.aggType) && CustomKeyed(aggs, key.aggType)
    ensures !r.Folded? ==> cache.entries == old(cache.entries)
    ensures r.Folded? ==>
              var s := Read(aggs, key, views, Lookup(old(cache.entries), key), bound);
              && r == Folded(s.prev, s.curr)
              && s.cached.Some? && cache.entries == old(cache.entries)[key := s.cached.value]
  {
    if !Registered(aggs, key.aggType) { return Unregistered; }
    if CustomKeyed(aggs, key.aggType) { return CustomKey; }

    ghost var entries := cache.entries;
    var cached := Lookup(cache.entries, key);
    cache.entries := cache.entries - {key};
    var start := ColdEntry(aggs, key.aggType);
    var cacheable := true;
    if cached.Some? {
      if cached.value.foldedTo <= bound {
        start := cached.value;
      } else {
        cache.entries := cache.entries[key := cached.value];
        cacheable := false;
        PutBack(entries, key, cached.value);
      }
    }
    var merged := MergeTails(aggs, key, views, start, bound);
    var f := FoldTail(aggs, key.aggType, bound, start, merged);
    if cacheable {
      cache.entries := cache.entries[key := f.entry];
      PutBack(entries, key, f.entry);
    }
    r := Folded(if f.prev.Some? then f.prev.value else f.entry.state, f.entry.state);
  }
}
