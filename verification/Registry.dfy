/** The aggregator registry and the durable fold path, on mutable maps.
    Every method is proved to be the like-named function of `RegistrySpec` or
    `RepairSpec` on the registry's contents. */
module Registry {
  import opened JsonValue
  import opened EventLog
  import opened LogStore
  import opened Folding
  import opened RegistrySpec
  import Spec = RepairSpec

  class SnapshotStore {
    var rows: map<Key, Spec.Snapshot>

    constructor ()
      ensures rows == map[]
    {
      rows := map[];
    }
  }

  function RowsOf(store: SnapshotStore?): Spec.Rows
    reads store
  {
    if store == null then None else Some(store.rows)
  }

  class AggregatorRegistry {
    var aggregators: Aggregators
    var state: map<Key, Entry>
    var prev: map<Key, State>

    constructor (aggregators: Aggregators)
      ensures this.aggregators == aggregators && Contents() == EMPTY_REG
    {
      this.aggregators := aggregators;
      state := map[];
      prev := map[];
    }

    function Contents(): Reg
      reads this
    {
      Reg(state, prev)
    }

    /** Gate, read-modify-write and `:prev` bookkeeping for one aggregator. */
    method ApplyTo(a: Aggregator, key: Key, e: Event) returns (effect: Effect)
      modifies this`state, this`prev
      ensures (At(Contents(), key), effect) == ApplySlot(a, old(At(Contents(), key)), e)
      ensures Contents() == Put(old(Contents()), key, At(Contents(), key))
    {
      var existing := if key in state then Some(state[key]) else None;
      var pre := if existing.None? then a.initial else existing.value.state;
      match Gate(a, existing, e) {
        case Fold =>
          var post := a.apply(pre, e.payload);
          var snapshotAt := if existing.None? then 0 else existing.value.snapshotAt;
          state := state[key := Entry(post, e.revision + 1, e.position, snapshotAt)];
          prev := prev[key := pre];
          effect := Folded(pre, post);
        case Skip(exactPrev) =>
          effect := Skipped(if exactPrev && key in prev then prev[key] else pre, pre);
        case Gap(expected) =>
          effect := Gapped(expected);
      }
    }

    /** `apply_event`; `ok` is false when a restorable aggregator met an event
        outside its own stream, with the folds made so far left in place. */
    method ApplyEvent(e: Event) returns (out: Outcome, ok: bool)
      modifies this`state, this`prev
      ensures Applied(Contents(), out, ok) == RegistrySpec.ApplyEvent(aggregators, old(Contents()), e)
    {
      out := NO_OUTCOME;
      var i := 0;
      while i < |aggregators|
        invariant i <= |aggregators|
        invariant Applied(Contents(), out, true) == ApplyUpto(aggregators, i, old(Contents()), e)
      {
        var a := aggregators[i];
        if a.kind == e.kind {
          var id := a.idOf(e.payload);
          if id.Some? {
            if a.Aligned() && (id.value != e.stream.subject || a.subject != e.stream.category) {
              FailureSticks(aggregators, i + 1, old(Contents()), e);
              return out, false;
            }
            var key := Key(a.aggType, id.value);
            var effect := ApplyTo(a, key, e);
            match effect {
              case Folded(pre, post) =>
                out := out.(pairs := out.pairs[key := (pre, post)], applied := true);
              case Skipped(before, curr) =>
                out := out.(pairs := out.pairs[key := (before, curr)]);
              case Gapped(expected) =>
                out := out.(gaps := out.gaps + [FoldGap(key.aggType, a.subject, key.id, expected)]);
            }
          }
        }
        i := i + 1;
      }
      ok := true;
    }

    method SetState(key: Key, s: State, version: nat, snapshotAt: nat)
      modifies this`state
      ensures Contents() == Put(old(Contents()), key, InstallSlot(old(At(Contents(), key)), s, version, snapshotAt))
    {
      if key in state {
        if version > state[key].version {
          state := state[key := Entry(s, version, state[key].lastPos, snapshotAt)];
        }
      } else {
        state := state[key := Entry(s, version, 0, snapshotAt)];
      }
    }

    method AdvanceWatermark(key: Key, revision: nat, position: nat)
      modifies this`state
      ensures Contents() == Put(old(Contents()), key, AdvanceSlot(old(At(Contents(), key)), revision, position))
    {
      if key in state {
        if revision + 1 > state[key].version {
          state := state[key := state[key].(version := revision + 1)];
        }
        if position > state[key].lastPos {
          state := state[key := state[key].(lastPos := position)];
        }
      }
    }

    method GetVersion(key: Key) returns (version: nat)
      ensures version == At(Contents(), key).Version()
    {
      version := if key in state then state[key].version else 0;
    }

    method GetSnapshotAtVersion(key: Key) returns (version: nat)
      ensures version == if key in state then state[key].snapshotAt else 0
    {
      version := if key in state then state[key].snapshotAt else 0;
    }

    method GetState(key: Key) returns (s: Option<State>)
      ensures s == if key in state then Some(state[key].state) else None
    {
      s := if key in state then Some(state[key].state) else None;
    }

    method UpdateSnapshotAtVersion(key: Key, version: nat)
      modifies this`state
      ensures state
           == if key in old(state) then old(state)[key := old(state)[key].(snapshotAt := version)] else old(state)
    {
      if key in state { state := state[key := state[key].(snapshotAt := version)]; }
    }

    method ReplayEventsOnto(t: string, s: State, events: seq<Event>) returns (r: State)
      ensures r == Spec.ReplayOnto(aggregators, t, s, events)
    {
      r := s;
      var i := 0;
      while i < |events|
        invariant i <= |events|
        invariant Spec.ReplayOnto(aggregators, t, r, events[i..]) == Spec.ReplayOnto(aggregators, t, s, events)
      {
        ghost var before := r;
        var j := 0;
        while j < |aggregators|
          invariant j <= |aggregators|
          invariant r == Spec.ReplayOne(aggregators, j, t, before, events[i])
        {
          var a := aggregators[j];
          if a.aggType == t && a.kind == events[i].kind {
            r := a.apply(r, events[i].payload);
          }
          j := j + 1;
        }
        assert events[i..][1..] == events[i + 1..];
        i := i + 1;
      }
    }
  }

  lemma {:induction false} FailureSticks(aggs: Aggregators, n: nat, reg: Reg, e: Event)
    requires n <= |aggs| && !ApplyUpto(aggs, n, reg, e).ok
    ensures RegistrySpec.ApplyEvent(aggs, reg, e) == ApplyUpto(aggs, n, reg, e)
    decreases |aggs| - n
  {
    if n < |aggs| {
      assert ApplyUpto(aggs, n + 1, reg, e) == ApplyUpto(aggs, n, reg, e);
      FailureSticks(aggs, n + 1, reg, e);
    }
  }

  /** Load a snapshot, deleting one whose blob no longer deserializes. */
  method LoadSnapshot(store: SnapshotStore?, key: Key) returns (snap: Option<Spec.Snapshot>)
    modifies store
    ensures snap == Spec.LoadRow(old(RowsOf(store)), key)
    ensures RowsOf(store) == Spec.Healed(old(RowsOf(store)), key)
  {
    if store == null || key !in store.rows { return None; }
    snap := Some(store.rows[key]);
    if snap.value.blob.None? {
      store.rows := store.rows - {key};
    }
  }

  /** The second half of a restore: read, replay, install. */
  method Hydrate(reg: AggregatorRegistry, log: MemoryLog, key: Key, subject: string, snap: Option<Spec.Snapshot>)
    returns (ok: bool)
    requires Registered(reg.aggregators, key.aggType)
    modifies reg`state
    ensures (reg.Contents(), ok)
         == Spec.Hydrate(reg.aggregators, log.events, old(reg.Contents()), key, subject, snap)
  {
    var seed := Spec.SeedOf(Initial(reg.aggregators, key.aggType), snap);
    var tail := log.ReadStream(StreamId(subject, key.id), seed.after);
    if seed.after.None? && tail == [] { return false; }
    var s := reg.ReplayEventsOnto(key.aggType, seed.state, tail);
    var last := if tail != [] then tail[|tail| - 1].revision else seed.after.value;
    var snapshotAt := if snap.Some? then snap.value.revision + 1 else 0;
    HydrateInstalls(reg.aggregators, log.events, reg.Contents(), key, subject, snap, seed, tail, s);
    reg.SetState(key, s, last + 1, snapshotAt);
    ok := true;
  }

  /** What is left of a restore once the stream is read and replayed. */
  lemma HydrateInstalls(aggs: Aggregators, log: Log, reg: Reg, key: Key, subject: string, snap: Option<Spec.Snapshot>,
      seed: Spec.Seed, tail: seq<Event>, s: State)
    requires Registered(aggs, key.aggType) && seed == Spec.SeedOf(Initial(aggs, key.aggType), snap)
    requires tail == EventLog.ReadStream(log, StreamId(subject, key.id), seed.after)
    requires s == Spec.ReplayOnto(aggs, key.aggType, seed.state, tail) && (seed.after.Some? || tail != [])
    ensures var last := if tail != [] then tail[|tail| - 1].revision else seed.after.value;
            var snapshotAt := if snap.Some? then snap.value.revision + 1 else 0;
            Spec.Hydrate(aggs, log, reg, key, subject, snap)
            == (Put(reg, key, InstallSlot(At(reg, key), s, last + 1, snapshotAt)), true)
  {
  }

  /** `restore_aggregate` */
  method RestoreAggregate(reg: AggregatorRegistry, store: SnapshotStore?, log: MemoryLog, key: Key, subject: string)
    returns (ok: bool)
    modifies reg`state, store
    ensures Spec.Restored(reg.Contents(), RowsOf(store), ok)
         == Spec.Restore(reg.aggregators, log.events, old(reg.Contents()), old(RowsOf(store)), key, subject)
  {
    if subject == "" { return false; }
    if key in reg.state { return true; }
    if !Registered(reg.aggregators, key.aggType) { return false; }
    var snap := LoadSnapshot(store, key);
    ok := Hydrate(reg, log, key, subject, snap);
  }

  /** Fold a stream tail, moving the repaired watermark over each event. */
  method RepairTail(reg: AggregatorRegistry, ghost rows: Spec.Rows, key: Key, tail: seq<Event>, upto: Option<nat>)
    returns (ok: bool)
    modifies reg`state, reg`prev
    ensures Spec.Repaired(reg.Contents(), rows, ok)
         == Spec.RepairTail(reg.aggregators, old(reg.Contents()), rows, key, tail, upto)
  {
    ghost var goal := Spec.RepairTail(reg.aggregators, reg.Contents(), rows, key, tail, upto);
    var i := 0;
    while i < |tail| && !Spec.Past(upto, tail[i])
      invariant i <= |tail|
      invariant Spec.RepairTail(reg.aggregators, reg.Contents(), rows, key, tail[i..], upto) == goal
    {
      assert tail[i..][0] == tail[i] && tail[i..][1..] == tail[i + 1..];
      var out, applied := reg.ApplyEvent(tail[i]);
      if !applied { return false; }
      if !Spec.SelfGapped(out, key) {
        reg.AdvanceWatermark(key, tail[i].revision, tail[i].position);
      }
      i := i + 1;
    }
    ok := true;
  }

  /** `repair_gap` */
  method RepairGap(reg: AggregatorRegistry, store: SnapshotStore?, log: MemoryLog, gap: FoldGap, upto: Option<nat>)
    returns (ok: bool)
    modifies reg`state, reg`prev, store
    ensures Spec.Repaired(reg.Contents(), RowsOf(store), ok)
         == Spec.RepairGap(reg.aggregators, log.events, old(reg.Contents()), old(RowsOf(store)), gap, upto)
  {
    var key := gap.Key();
    if upto.None? && key !in reg.state {
      var restored := RestoreAggregate(reg, store, log, key, gap.subject);
      if restored { return true; }
    }
    if upto.Some? && key !in reg.state && Registered(reg.aggregators, key.aggType) {
      reg.SetState(key, Initial(reg.aggregators, key.aggType), 0, 0);
    }
    var tail := log.ReadStream(StreamId(gap.subject, gap.id), Spec.AfterOf(gap.expected));
    ok := RepairTail(reg, RowsOf(store), key, tail, upto);
  }

  /** The repairs of one round. */
  method RepairGaps(reg: AggregatorRegistry, store: SnapshotStore?, log: MemoryLog, gaps: seq<FoldGap>,
      upto: Option<nat>)
    returns (ok: bool)
    modifies reg`state, reg`prev, store
    ensures Spec.Repaired(reg.Contents(), RowsOf(store), ok)
         == Spec.RepairGaps(reg.aggregators, log.events, old(reg.Contents()), old(RowsOf(store)), gaps, upto)
  {
    ghost var goal := Spec.RepairGaps(reg.aggregators, log.events, reg.Contents(), RowsOf(store), gaps, upto);
    var i := 0;
    assert gaps[0..] == gaps;
    while i < |gaps|
      invariant i <= |gaps|
      invariant GapsLeft(reg.aggregators, log.events, reg.Contents(), RowsOf(store), gaps, i, upto, goal)
    {
      NextGap(reg.aggregators, log.events, reg.Contents(), RowsOf(store), gaps, i, upto, goal);
      var repaired := RepairGap(reg, store, log, gaps[i], upto);
      if !repaired { return false; }
      i := i + 1;
    }
    NoGapLeft(reg.aggregators, log.events, reg.Contents(), RowsOf(store), gaps, upto, goal);
    ok := true;
  }

  /** Repairing the gaps from `i` on leads to `goal`. */
  ghost predicate GapsLeft(aggs: Aggregators, log: Log, reg: Reg, rows: Spec.Rows, gaps: seq<FoldGap>, i: nat,
      upto: Option<nat>, goal: Spec.Repaired) {
    i <= |gaps| && Spec.RepairGaps(aggs, log, reg, rows, gaps[i..], upto) == goal
  }

  lemma NextGap(aggs: Aggregators, log: Log, reg: Reg, rows: Spec.Rows, gaps: seq<FoldGap>, i: nat, upto: Option<nat>,
      goal: Spec.Repaired)
    requires i < |gaps| && GapsLeft(aggs, log, reg, rows, gaps, i, upto, goal)
    ensures var r := Spec.RepairGap(aggs, log, reg, rows, gaps[i], upto);
            if r.ok then GapsLeft(aggs, log, r.reg, r.rows, gaps, i + 1, upto, goal) else goal == r
  {
    assert gaps[i..][1..] == gaps[i + 1..];
  }

  lemma NoGapLeft(aggs: Aggregators, log: Log, reg: Reg, rows: Spec.Rows, gaps: seq<FoldGap>, upto: Option<nat>,
      goal: Spec.Repaired)
    requires GapsLeft(aggs, log, reg, rows, gaps, |gaps|, upto, goal)
    ensures goal == Spec.Repaired(reg, rows, true)
  {
  }

  datatype FoldReport = Converged(out: Outcome) | Failed | Retry

  ghost function Report(f: Spec.FoldResult): FoldReport {
    if f.FoldOk? then Converged(f.out) else Failed
  }

  /** One round of apply and repair; `Retry` when gaps were repaired. */
  method FoldRound(reg: AggregatorRegistry, store: SnapshotStore?, log: MemoryLog, e: Event, strict: bool,
      ghost rounds: nat)
    returns (r: FoldReport)
    requires rounds > 0
    modifies reg`state, reg`prev, store
    ensures var f := Spec.FoldEvent(reg.aggregators, log.events, old(reg.Contents()), old(RowsOf(store)), e, strict,
                                    rounds);
            if r.Retry? then
              f == Spec.FoldEvent(reg.aggregators, log.events, reg.Contents(), RowsOf(store), e, strict, rounds - 1)
            else reg.Contents() == f.reg && RowsOf(store) == f.rows && r == Report(f)
  {
    var out, applied := reg.ApplyEvent(e);
    if !applied { return Failed; }
    if out.gaps == [] { return Converged(out); }
    var repaired := RepairGaps(reg, store, log, out.gaps, if strict then Some(e.revision) else None);
    r := if repaired then Retry else Failed;
  }

  /** `fold_event`, as far as `limit` rounds of apply and repair go. */
  method FoldEvent(reg: AggregatorRegistry, store: SnapshotStore?, log: MemoryLog, e: Event, strict: bool, limit: nat)
    returns (r: FoldReport)
    modifies reg`state, reg`prev, store
    ensures var f := Spec.FoldEvent(reg.aggregators, log.events, old(reg.Contents()), old(RowsOf(store)), e, strict,
                                    limit);
            reg.Contents() == f.reg && RowsOf(store) == f.rows && r == Report(f)
  {
    ghost var goal := Spec.FoldEvent(reg.aggregators, log.events, reg.Contents(), RowsOf(store), e, strict, limit);
    var rounds := limit;
    while rounds > 0
      invariant Remaining(reg.aggregators, log.events, reg.Contents(), RowsOf(store), e, strict, rounds, goal)
    {
      r := FoldRound(reg, store, log, e, strict, rounds);
      if !r.Retry? { return; }
      rounds := rounds - 1;
    }
    NoRoundLeft(reg.aggregators, log.events, reg.Contents(), RowsOf(store), e, strict, goal);
    r := Failed;
  }

  /** The rounds left lead to `goal`. */
  ghost predicate Remaining(aggs: Aggregators, log: Log, reg: Reg, rows: Spec.Rows, e: Event, strict: bool, rounds: nat,
      goal: Spec.FoldResult) {
    Spec.FoldEvent(aggs, log, reg, rows, e, strict, rounds) == goal
  }

  lemma NoRoundLeft(aggs: Aggregators, log: Log, reg: Reg, rows: Spec.Rows, e: Event, strict: bool,
      goal: Spec.FoldResult)
    requires Remaining(aggs, log, reg, rows, e, strict, 0, goal)
    ensures goal == Spec.FoldErr(reg, rows)
  {
  }

  /** On a well-formed log and a correct registry the fold converges, and the
      registry and the snapshots are correct again afterwards. */
  method FoldCommittedEvent(reg: AggregatorRegistry, store: SnapshotStore?, log: MemoryLog, e: Event, strict: bool)
    returns (r: FoldReport)
    requires Spec.Sane(reg.aggregators, log.events) && Committed(log.events, e)
    requires Spec.RegOk(reg.aggregators, log.events, reg.Contents())
    requires Spec.RowsOk(reg.aggregators, log.events, RowsOf(store))
    modifies reg`state, reg`prev, store
    ensures r.Converged? && r.out.gaps == []
    ensures Spec.RegOk(reg.aggregators, log.events, reg.Contents())
    ensures Spec.RowsOk(reg.aggregators, log.events, RowsOf(store))
    ensures Spec.Advances(reg.aggregators, old(reg.Contents()), reg.Contents())
  {
    Spec.FoldEventConverges(reg.aggregators, log.events, reg.Contents(), RowsOf(store), e, strict, Spec.MAX_ROUNDS);
    r := FoldEvent(reg, store, log, e, strict, Spec.MAX_ROUNDS);
  }

  // ── Snapshots ─────────────────────────────────────────────────────

  /** The key has folded at least `every` events since its last snapshot. */
  predicate Due(aggs: Aggregators, reg: Reg, key: Key, every: nat) {
    && every > 0
    && key in reg.entries
    && reg.entries[key].version >= reg.entries[key].snapshotAt + every
    && AlignedType(aggs, key.aggType)
  }

  function SnapshotOf(entry: Entry): Spec.Snapshot
    requires entry.version > 0
  {
    Spec.Snapshot(entry.version - 1, Some(entry.state))
  }

  /** A due key is saved at its version; any other is left alone. */
  ghost predicate SavesKey(aggs: Aggregators, every: nat, failing: set<Key>, done: set<Key>, key: Key,
                           reg: Reg, rows: map<Key, Spec.Snapshot>, reg': Reg, rows': map<Key, Spec.Snapshot>) {
    if key in done && key !in failing && Due(aggs, reg, key, every) then
      var entry := reg.entries[key];
      && entry.version > 0
      && Spec.LoadRow(Some(rows'), key) == Some(SnapshotOf(entry))
      && At(reg', key) == At(reg, key).(entry := Some(entry.(snapshotAt := entry.version)))
    else
      Spec.LoadRow(Some(rows'), key) == Spec.LoadRow(Some(rows), key) && At(reg', key) == At(reg, key)
  }

  /** The saves of one `maybe_save_snapshots` call over `done` of its keys. */
  ghost predicate Saves(aggs: Aggregators, every: nat, failing: set<Key>, done: set<Key>,
                        reg: Reg, rows: map<Key, Spec.Snapshot>, reg': Reg, rows': map<Key, Spec.Snapshot>) {
    forall key :: SavesKey(aggs, every, failing, done, key, reg, rows, reg', rows')
  }

  /** One key's save. Its reads of the entry are separate; nothing else runs
      in between here, while `TornSnapshots` lets folds in. */
  method SaveIfDue(reg: AggregatorRegistry, store: SnapshotStore, every: nat, key: Key, failing: set<Key>)
    modifies reg`state, store
    ensures Saves(reg.aggregators, every, failing, {key}, old(reg.Contents()), old(store.rows), reg.Contents(),
                  store.rows)
  {
    var version := reg.GetVersion(key);
    var snapshotAt := reg.GetSnapshotAtVersion(key);
    if every == 0 || version < snapshotAt + every || !AlignedType(reg.aggregators, key.aggType) { return; }
    var s := reg.GetState(key);
    if s.None? || key in failing { return; }
    store.rows := store.rows[key := Spec.Snapshot(version - 1, Some(s.value))];
    reg.UpdateSnapshotAtVersion(key, version);
  }

  ghost predicate SameDue(aggs: Aggregators, every: nat, a: Reg, b: Reg, key: Key) {
    && (At(a, key).entry.Some? <==> key in a.entries) && (At(b, key).entry.Some? <==> key in b.entries)
    && (Due(aggs, a, key, every) <==> Due(aggs, b, key, every))
    && (Due(aggs, a, key, every) ==> a.entries[key] == b.entries[key])
  }

  lemma SavesCompose(aggs: Aggregators, every: nat, failing: set<Key>, done: set<Key>, key: Key,
                     a: Reg, rowsA: map<Key, Spec.Snapshot>, b: Reg, rowsB: map<Key, Spec.Snapshot>,
                     c: Reg, rowsC: map<Key, Spec.Snapshot>)
    requires key !in done
    requires Saves(aggs, every, failing, done, a, rowsA, b, rowsB)
    requires Saves(aggs, every, failing, {key}, b, rowsB, c, rowsC)
    ensures Saves(aggs, every, failing, done + {key}, a, rowsA, c, rowsC)
  {
    forall k ensures SavesKey(aggs, every, failing, done + {key}, k, a, rowsA, c, rowsC) {
      assert SavesKey(aggs, every, failing, done, k, a, rowsA, b, rowsB);
      assert SavesKey(aggs, every, failing, {key}, k, b, rowsB, c, rowsC);
      assert k == key ==> At(a, k) == At(b, k) && SameDue(aggs, every, a, b, k);
    }
  }

  /** `maybe_save_snapshots` after a fold that reported `keys`; saves of keys
      in `failing` are refused by the store and skipped. */
  method MaybeSaveSnapshots(reg: AggregatorRegistry, store: SnapshotStore, every: nat, keys: set<Key>,
      failing: set<Key>)
    modifies reg`state, store
    ensures Saves(reg.aggregators, every, failing, keys, old(reg.Contents()), old(store.rows), reg.Contents(),
                  store.rows)
  {
    ghost var reg0, rows0 := reg.Contents(), store.rows;
    var todo := keys;
    while todo != {}
      invariant todo <= keys
      invariant Saves(reg.aggregators, every, failing, keys - todo, reg0, rows0, reg.Contents(), store.rows)
      decreases |todo|
    {
      var key :| key in todo;
      ghost var reg1, rows1 := reg.Contents(), store.rows;
      SaveIfDue(reg, store, every, key, failing);
      SavesCompose(reg.aggregators, every, failing, keys - todo, key, reg0, rows0, reg1, rows1, reg.Contents(),
                   store.rows);
      assert keys - todo + {key} == keys - (todo - {key});
      todo := todo - {key};
    }
    assert keys - todo == keys;
  }

  /** Saving keeps the snapshot store and the registry correct: every snapshot
      written is the prefix fold at the revision it names. */
  lemma SavesAreSound(aggs: Aggregators, log: Log, every: nat, failing: set<Key>, keys: set<Key>,
                      reg: Reg, rows: map<Key, Spec.Snapshot>, reg': Reg, rows': map<Key, Spec.Snapshot>)
    requires Saves(aggs, every, failing, keys, reg, rows, reg', rows')
    requires Spec.RegOk(aggs, log, reg) && Spec.RowsOk(aggs, log, Some(rows))
    ensures Spec.RegOk(aggs, log, reg') && Spec.RowsOk(aggs, log, Some(rows'))
  {
    forall key ensures Spec.SlotOk(aggs, log, key, At(reg', key)) {
      assert Spec.SlotOk(aggs, log, key, At(reg, key));
      assert SavesKey(aggs, every, failing, keys, key, reg, rows, reg', rows');
    }
    forall key | key in rows' ensures Spec.SnapshotOk(aggs, log, key, rows'[key]) {
      assert SavesKey(aggs, every, failing, keys, key, reg, rows, reg', rows');
      assert Spec.SlotOk(aggs, log, key, At(reg, key));
      assert Spec.LoadRow(Some(rows'), key) == Some(rows'[key]);
      if Spec.LoadRow(Some(rows'), key) == Spec.LoadRow(Some(rows), key) {
        assert key in rows;
      }
    }
  }

  /** Saving and later restoring a vacant key — from the saved snapshot or
      from genesis — reads the same: the fold of the whole stream, which may
      have grown in between. */
  lemma SnapshotThenRestore(aggs: Aggregators, log: Log, log': Log, every: nat, key: Key, reg: Reg,
                            rows: map<Key, Spec.Snapshot>, reg': Reg, rows': map<Key, Spec.Snapshot>)
    requires log <= log' && Spec.Sane(aggs, log')
    requires Saves(aggs, every, {}, {key}, reg, rows, reg', rows')
    requires Spec.RegOk(aggs, log, reg) && Spec.RowsOk(aggs, log, Some(rows))
    requires AlignedType(aggs, key.aggType) && Due(aggs, reg, key, every)
    ensures var subject := StreamOf(aggs, key).category;
            var h := Stream(log', StreamOf(aggs, key));
            var warm := Spec.Restore(aggs, log', EMPTY_REG, Some(rows'), key, subject);
            var cold := Spec.Restore(aggs, log', EMPTY_REG, None, key, subject);
            && warm.ok && cold.ok
            && warm.reg.entries[key].state == cold.reg.entries[key].state == PrefixFold(aggs, key.aggType, h)
            && warm.reg.entries[key].version == cold.reg.entries[key].version == |h|
            && warm.reg.entries[key].snapshotAt == reg.entries[key].version
  {
    SavesAreSound(aggs, log, every, {}, {key}, reg, rows, reg', rows');
    forall k | k in rows' ensures Spec.SnapshotOk(aggs, log', k, rows'[k]) {
      assert Spec.SnapshotOk(aggs, log, k, rows'[k]);
      if AlignedType(aggs, k.aggType) {
        StreamGrows(log, log', StreamOf(aggs, k));
        var r := rows'[k].revision + 1;
        if r <= |Stream(log, StreamOf(aggs, k))| {
          assert Stream(log, StreamOf(aggs, k))[..r] == Stream(log', StreamOf(aggs, k))[..r];
        }
      }
    }
    Spec.RestoreIsGenesisReplay(aggs, log', EMPTY_REG, Some(rows'), key);
    Spec.RestoreIsGenesisReplay(aggs, log', EMPTY_REG, None, key);
    assert Spec.SlotOk(aggs, log, key, At(reg, key));
    StreamGrows(log, log', StreamOf(aggs, key));
    assert SavesKey(aggs, every, {}, {key}, key, reg, rows, reg', rows');
  }
}
