/** A snapshot save reads the version and the state of an entry in two steps.
    Folds that land in between tear it: the blob is ahead of the revision it is
    stored under. When that is harmless, in which runs of the registry it never
    happens, and what a later restore then reads. */
module TornSnapshots {
  import opened JsonValue
  import opened EventLog
  import opened Folding
  import opened Counting
  import opened RegistrySpec
  import opened RepairSpec
  import opened RegistryMachine

  /** The version is read at `v`, the state once the entry has reached `w`. */
  ghost function Torn(aggs: Aggregators, log: Log, key: Key, v: nat, w: nat): Snapshot
    requires AlignedType(aggs, key.aggType) && 0 < v <= w <= |Stream(log, StreamOf(aggs, key))|
  {
    Snapshot(v - 1, Some(PrefixFold(aggs, key.aggType, Stream(log, StreamOf(aggs, key))[..w])))
  }

  /** A torn save is sound whenever the events folded in between are foreign to
      the aggregate, and for an aggregate that counts its folds only then. */
  lemma TornIsSoundExactly(aggs: Aggregators, log: Log, key: Key, v: nat, w: nat, size: State -> nat)
    requires AlignedType(aggs, key.aggType) && 0 < v <= w <= |Stream(log, StreamOf(aggs, key))|
    requires CountsFolds(aggs, key.aggType, size)
    ensures SnapshotOk(aggs, log, key, Torn(aggs, log, key, v, w))
            <==> Matches(aggs, key.aggType, Stream(log, StreamOf(aggs, key))[v..w]) == 0
  {
    var t, h := key.aggType, Stream(log, StreamOf(aggs, key));
    CountingFold(aggs, t, size, h[..v]);
    CountingFold(aggs, t, size, h[..w]);
    MatchesSplit(aggs, t, h, v, w);
    if Matches(aggs, t, h[v..w]) == 0 { FoldsAgree(aggs, t, h, v, w); }
  }

  /** In particular a save with nothing folded in between is sound. */
  lemma ForeignTearIsSound(aggs: Aggregators, log: Log, key: Key, v: nat, w: nat)
    requires AlignedType(aggs, key.aggType) && 0 < v <= w <= |Stream(log, StreamOf(aggs, key))|
    requires Matches(aggs, key.aggType, Stream(log, StreamOf(aggs, key))[v..w]) == 0
    ensures SnapshotOk(aggs, log, key, Torn(aggs, log, key, v, w))
  {
    FoldsAgree(aggs, key.aggType, Stream(log, StreamOf(aggs, key)), v, w);
  }

  lemma {:induction false} CountingReplay(aggs: Aggregators, t: string, size: State -> nat, s: State, h: seq<Event>)
    requires WellFormedAggs(aggs) && CountsFolds(aggs, t, size)
    ensures size(ReplayOnto(aggs, t, s, h)) == size(s) + Matches(aggs, t, h)
    decreases |h|
  {
    if h != [] {
      ReplayOneIsStep(aggs, |aggs|, t, s, h[0]);
      CountingReplay(aggs, t, size, ReplayOne(aggs, |aggs|, t, s, h[0]), h[1..]);
      MatchesSplit(aggs, t, h, 1, |h|);
      assert h[..|h|] == h && h[1..|h|] == h[1..];
      MatchesSplit(aggs, t, h, 0, 1);
      assert h[..0] == [] && h[0..1] == [h[0]] && h[..1] == [h[0]] && [h[0]][..0] == [];
    }
  }

  /** Restoring a vacant key from a torn snapshot replays the events folded in
      between a second time: its count is too high by exactly their number,
      at a version that claims the whole stream. */
  lemma TornRestoreFoldsTwice(aggs: Aggregators, log: Log, key: Key, v: nat, w: nat, size: State -> nat)
    requires Sane(aggs, log) && AlignedType(aggs, key.aggType) && CountsFolds(aggs, key.aggType, size)
    requires 0 < v <= w <= |Stream(log, StreamOf(aggs, key))|
    ensures var h := Stream(log, StreamOf(aggs, key));
            var rows := Some(map[key := Torn(aggs, log, key, v, w)]);
            var r := Restore(aggs, log, EMPTY_REG, rows, key, StreamOf(aggs, key).category);
            && r.ok && key in r.reg.entries && r.reg.entries[key].version == |h|
            && size(r.reg.entries[key].state)
               == size(PrefixFold(aggs, key.aggType, h)) + Matches(aggs, key.aggType, h[v..w])
  {
    var t, s := key.aggType, StreamOf(aggs, key);
    var h := Stream(log, s);
    var torn := Torn(aggs, log, key, v, w);
    StreamIsDense(log, s);
    assert ReadStream(log, s, Some(v - 1)) == h[v..];
    TornCounts(aggs, t, h, v, w, size);
    HydrateTorn(aggs, log, key, torn, v);
  }

  lemma TornCounts(aggs: Aggregators, t: string, h: seq<Event>, v: nat, w: nat, size: State -> nat)
    requires WellFormedAggs(aggs) && Registered(aggs, t) && CountsFolds(aggs, t, size) && v <= w <= |h|
    ensures size(ReplayOnto(aggs, t, PrefixFold(aggs, t, h[..w]), h[v..]))
         == size(PrefixFold(aggs, t, h)) + Matches(aggs, t, h[v..w])
  {
    CountingReplay(aggs, t, size, PrefixFold(aggs, t, h[..w]), h[v..]);
    CountingFold(aggs, t, size, h[..w]);
    CountingFold(aggs, t, size, h);
    MatchesSplit(aggs, t, h, v, |h|);
    MatchesSplit(aggs, t, h, v, w);
    assert h[..|h|] == h && h[v..|h|] == h[v..];
  }

  lemma HydrateTorn(aggs: Aggregators, log: Log, key: Key, torn: Snapshot, v: nat)
    requires WellFormed(log) && AlignedType(aggs, key.aggType) && 0 < v <= |Stream(log, StreamOf(aggs, key))|
    requires torn.revision == v - 1 && torn.blob.Some?
    ensures var h := Stream(log, StreamOf(aggs, key));
            var r := Restore(aggs, log, EMPTY_REG, Some(map[key := torn]), key, StreamOf(aggs, key).category);
            && r.ok && key in r.reg.entries && r.reg.entries[key].version == |h|
            && r.reg.entries[key].state == ReplayOnto(aggs, key.aggType, torn.blob.value, h[v..])
  {
    var h := Stream(log, StreamOf(aggs, key));
    StreamIsDense(log, StreamOf(aggs, key));
    assert ReadStream(log, StreamOf(aggs, key), Some(v - 1)) == h[v..];
    assert LoadRow(Some(map[key := torn]), key) == Some(torn);
  }

  // ── On the runs of the registry ───────────────────────────────────

  /** A save that has read its version and its state holds what `Torn` says. */
  lemma ReadsAreTorn(aggs: Aggregators, w: World, k: nat)
    requires Inv(aggs, true, w) && k < |w.saves| && w.saves[k].phase.StateRead?
    ensures var s := w.saves[k];
            && AlignedType(aggs, s.key.aggType)
            && 0 < s.phase.version <= s.phase.seen <= |Stream(w.log, StreamOf(aggs, s.key))|
            && RowOf(s.phase) == Torn(aggs, w.log, s.key, s.phase.version, s.phase.seen)
  {
    assert SaveOk(aggs, true, w.log, w.reg, w.saves[k]);
  }

  /** Every snapshot a run stores, up to its first torn one, is the fold at the
      version its state was read at, stored under the one read before. */
  lemma StoredRowIsTorn(aggs: Aggregators, every: nat, run: seq<World>, i: nat, k: nat)
    requires IsRun(aggs, every, run) && 0 < i < |run| && WholeUpto(aggs, run, i - 1)
    requires SaveWrites(run[i - 1], k, run[i])
    ensures var s, log := run[i - 1].saves[k], run[i].log;
            && AlignedType(aggs, s.key.aggType)
            && 0 < s.phase.version <= s.phase.seen <= |Stream(log, StreamOf(aggs, s.key))|
            && LoadRow(run[i].rows, s.key) == Some(Torn(aggs, log, s.key, s.phase.version, s.phase.seen))
  {
    RunKeepsInv(aggs, every, run, i - 1, true);
    ReadsAreTorn(aggs, run[i - 1], k);
  }

  /** A torn write leaves a snapshot that is not the fold at its revision. */
  lemma TearIsUnsound(aggs: Aggregators, every: nat, run: seq<World>, i: nat, size: State -> nat)
    requires IsRun(aggs, every, run) && TearsAt(aggs, run, i) && WholeUpto(aggs, run, i - 1)
    requires forall t | AlignedType(aggs, t) :: CountsFolds(aggs, t, size)
    ensures !RowsOk(aggs, run[i].log, run[i].rows)
  {
    var k :| SaveWrites(run[i - 1], k, run[i]) && !Whole(aggs, run[i - 1].log, run[i - 1].saves[k]);
    var s, log := run[i - 1].saves[k], run[i].log;
    StoredRowIsTorn(aggs, every, run, i, k);
    TornIsSoundExactly(aggs, log, s.key, s.phase.version, s.phase.seen, size);
    assert !SnapshotOk(aggs, log, s.key, run[i].rows.value[s.key]);
  }

  lemma {:induction false} SoundRunsAreWhole(aggs: Aggregators, every: nat, run: seq<World>, n: nat, size: State -> nat)
    requires IsRun(aggs, every, run) && n < |run|
    requires forall t | AlignedType(aggs, t) :: CountsFolds(aggs, t, size)
    requires forall j | 0 <= j <= n :: RowsOk(aggs, run[j].log, run[j].rows)
    ensures WholeUpto(aggs, run, n)
    decreases n
  {
    if n > 0 {
      SoundRunsAreWhole(aggs, every, run, n - 1, size);
      if TearsAt(aggs, run, n) { TearIsUnsound(aggs, every, run, n, size); }
    }
  }

  /** The exact condition, run by run: every snapshot a run ever holds is the
      prefix fold at its revision exactly when no save it completes had events
      of its aggregate folded between its two reads. (One way for any
      aggregates, by `EveryInterleavingIsSafe`; the other for aggregates that
      count their folds.) */
  lemma SnapshotsAreSoundExactly(aggs: Aggregators, every: nat, run: seq<World>, size: State -> nat)
    requires IsRun(aggs, every, run)
    requires forall t | AlignedType(aggs, t) :: CountsFolds(aggs, t, size)
    ensures (forall j | 0 <= j < |run| :: RowsOk(aggs, run[j].log, run[j].rows)) <==> WholeUpto(aggs, run, |run| - 1)
  {
    if WholeUpto(aggs, run, |run| - 1) {
      forall j | 0 <= j < |run| ensures RowsOk(aggs, run[j].log, run[j].rows) {
        EveryInterleavingIsSafe(aggs, every, run, j, j);
      }
    } else if forall j | 0 <= j < |run| :: RowsOk(aggs, run[j].log, run[j].rows) {
      SoundRunsAreWhole(aggs, every, run, |run| - 1, size);
    }
  }
}
