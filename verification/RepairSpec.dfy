/** Gap repair, durable restore and the fold entry point, as functions on
    values, and what they keep: every aligned entry is the fold of exactly the
    stream prefix its version names. */
module RepairSpec {
  import opened JsonValue
  import opened EventLog
  import opened Folding
  import opened RegistrySpec

  /** A stored snapshot; a `None` blob no longer deserializes. */
  datatype Snapshot = Snapshot(revision: nat, blob: Option<State>)

  /** The snapshot store's rows, `None` when no store is wired. */
  type Rows = Option<map<Key, Snapshot>>

  // ── Replay and restore ────────────────────────────────────────────

  /** `replay_events_onto` for one event and the first `n` aggregators. */
  function ReplayOne(aggs: Aggregators, n: nat, t: string, state: State, e: Event): State
    requires n <= |aggs|
    decreases n
  {
    if n == 0 then state
    else
      var s := ReplayOne(aggs, n - 1, t, state, e);
      if aggs[n - 1].aggType == t && aggs[n - 1].kind == e.kind then aggs[n - 1].apply(s, e.payload) else s
  }

  function ReplayOnto(aggs: Aggregators, t: string, state: State, events: seq<Event>): State
    decreases |events|
  {
    if events == [] then state
    else ReplayOnto(aggs, t, ReplayOne(aggs, |aggs|, t, state, events[0]), events[1..])
  }

  datatype Seed = Seed(state: State, after: Option<nat>)

  /** The state a restore starts from, and the revision it stands for. */
  function SeedOf(initial: State, snap: Option<Snapshot>): Seed {
    if snap.Some? && snap.value.blob.Some? then Seed(snap.value.blob.value, Some(snap.value.revision))
    else Seed(initial, None)
  }

  function LoadRow(rows: Rows, key: Key): Option<Snapshot> {
    if rows.Some? && key in rows.value then Some(rows.value[key]) else None
  }

  /** A blob that fails to deserialize is deleted. */
  function Healed(rows: Rows, key: Key): Rows {
    var snap := LoadRow(rows, key);
    if snap.Some? && snap.value.blob.None? then Some(rows.value - {key}) else rows
  }

  datatype Restored = Restored(reg: Reg, rows: Rows, ok: bool)

  /** Replay the stream onto the seed a snapshot gives and install the result;
      declines when there is neither a snapshot nor an event. */
  function Hydrate(aggs: Aggregators, log: Log, reg: Reg, key: Key, subject: string, snap: Option<Snapshot>): (Reg,
      bool)
    requires Registered(aggs, key.aggType)
  {
    var seed := SeedOf(Initial(aggs, key.aggType), snap);
    var tail := ReadStream(log, StreamId(subject, key.id), seed.after);
    if tail == [] && seed.after.None? then (reg, false)
    else
      var state := ReplayOnto(aggs, key.aggType, seed.state, tail);
      var last := if tail != [] then tail[|tail| - 1].revision else seed.after.value;
      var snapshotAt := if snap.Some? then snap.value.revision + 1 else 0;
      (Put(reg, key, InstallSlot(At(reg, key), state, last + 1, snapshotAt)), true)
  }

  function Restore(aggs: Aggregators, log: Log, reg: Reg, rows: Rows, key: Key, subject: string): Restored {
    if subject == "" then Restored(reg, rows, false)
    else if key in reg.entries then Restored(reg, rows, true)
    else if !Registered(aggs, key.aggType) then Restored(reg, rows, false)
    else
      var (reg', ok) := Hydrate(aggs, log, reg, key, subject, LoadRow(rows, key));
      Restored(reg', Healed(rows, key), ok)
  }

  // ── Gap repair ────────────────────────────────────────────────────

  function AfterOf(expected: nat): Option<nat> {
    if expected == 0 then None else Some(expected - 1)
  }

  predicate SelfGapped(out: Outcome, key: Key) {
    exists g | g in out.gaps :: g.Key() == key
  }

  datatype Repaired = Repaired(reg: Reg, rows: Rows, ok: bool)

  function RepairStep(aggs: Aggregators, reg: Reg, key: Key, e: Event): Applied {
    var r := ApplyEvent(aggs, reg, e);
    if r.ok && !SelfGapped(r.out, key) then
      r.(reg := Put(r.reg, key, AdvanceSlot(At(r.reg, key), e.revision, e.position)))
    else r
  }

  predicate Past(upto: Option<nat>, e: Event) {
    upto.Some? && e.revision >= upto.value
  }

  function RepairTail(aggs: Aggregators, reg: Reg, rows: Rows, key: Key, tail: seq<Event>, upto: Option<nat>): Repaired
    decreases |tail|
  {
    if tail == [] || Past(upto, tail[0]) then Repaired(reg, rows, true)
    else
      var r := RepairStep(aggs, reg, key, tail[0]);
      if !r.ok then Repaired(r.reg, rows, false) else RepairTail(aggs, r.reg, rows, key, tail[1..], upto)
  }

  /** Strict repair gives a vacant entry the empty base to advance from. */
  function Seeded(aggs: Aggregators, reg: Reg, key: Key, upto: Option<nat>): Reg {
    if upto.Some? && key !in reg.entries && Registered(aggs, key.aggType) then
      Put(reg, key, InstallSlot(At(reg, key), Initial(aggs, key.aggType), 0, 0))
    else reg
  }

  function RepairGap(aggs: Aggregators, log: Log, reg: Reg, rows: Rows, gap: FoldGap, upto: Option<nat>): Repaired {
    var key := gap.Key();
    var restored :=
      if upto.None? && key !in reg.entries then Restore(aggs, log, reg, rows, key, gap.subject)
      else Restored(reg, rows, false);
    if restored.ok then Repaired(restored.reg, restored.rows, true)
    else
      var tail := ReadStream(log, StreamId(gap.subject, gap.id), AfterOf(gap.expected));
      RepairTail(aggs, Seeded(aggs, restored.reg, key, upto), restored.rows, key, tail, upto)
  }

  function RepairGaps(aggs: Aggregators, log: Log, reg: Reg, rows: Rows, gaps: seq<FoldGap>,
      upto: Option<nat>): Repaired
    decreases |gaps|
  {
    if gaps == [] then Repaired(reg, rows, true)
    else
      var r := RepairGap(aggs, log, reg, rows, gaps[0], upto);
      if !r.ok then r else RepairGaps(aggs, log, r.reg, r.rows, gaps[1..], upto)
  }

  // ── The fold entry point ──────────────────────────────────────────

  datatype FoldResult =
    | FoldOk(reg: Reg, rows: Rows, out: Outcome)
    | FoldErr(reg: Reg, rows: Rows)

  const MAX_ROUNDS := 8

  function FoldEvent(aggs: Aggregators, log: Log, reg: Reg, rows: Rows, e: Event, strict: bool, rounds: nat): FoldResult
    decreases rounds
  {
    if rounds == 0 then FoldErr(reg, rows)
    else
      var r := ApplyEvent(aggs, reg, e);
      if !r.ok then FoldErr(r.reg, rows)
      else if r.out.gaps == [] then FoldOk(r.reg, rows, r.out)
      else
        var fixed := RepairGaps(aggs, log, r.reg, rows, r.out.gaps, if strict then Some(e.revision) else None);
        if !fixed.ok then FoldErr(fixed.reg, fixed.rows)
        else FoldEvent(aggs, log, fixed.reg, fixed.rows, e, strict, rounds - 1)
  }

  // ── What a correct registry and snapshot store look like ──────────

  ghost predicate SlotOk(aggs: Aggregators, log: Log, key: Key, slot: Slot) {
    AlignedType(aggs, key.aggType) && slot.entry.Some? ==>
      var h := Stream(log, StreamOf(aggs, key));
      && slot.entry.value.version <= |h|
      && slot.entry.value.state == PrefixFold(aggs, key.aggType, h[..slot.entry.value.version])
  }

  ghost predicate RegOk(aggs: Aggregators, log: Log, reg: Reg) {
    forall key :: SlotOk(aggs, log, key, At(reg, key))
  }

  ghost predicate SnapshotOk(aggs: Aggregators, log: Log, key: Key, snap: Snapshot) {
    AlignedType(aggs, key.aggType) && snap.blob.Some? ==>
      var h := Stream(log, StreamOf(aggs, key));
      && snap.revision < |h|
      && snap.blob.value == PrefixFold(aggs, key.aggType, h[..snap.revision + 1])
  }

  ghost predicate RowsOk(aggs: Aggregators, log: Log, rows: Rows) {
    rows.Some? ==> forall key | key in rows.value :: SnapshotOk(aggs, log, key, rows.value[key])
  }

  /** Aligned entries are never dropped and their versions never fall. */
  ghost predicate Advances(aggs: Aggregators, reg: Reg, reg': Reg) {
    forall key: Key | AlignedType(aggs, key.aggType) ::
      && At(reg, key).Version() <= At(reg', key).Version()
      && (key in reg.entries ==> key in reg'.entries)
  }

  /** The standing assumptions about registered aggregators and the log. */
  ghost predicate Sane(aggs: Aggregators, log: Log) {
    WellFormedAggs(aggs) && WellFormed(log) && Compatible(aggs, log)
  }

  lemma CommittedAligned(aggs: Aggregators, log: Log, e: Event)
    requires Sane(aggs, log) && Committed(log, e)
    ensures forall a | a in aggs :: AlignedWith(a, e)
  {
    var i := StreamInLog(log, e.stream, e.revision);
    StreamIsDense(log, e.stream);
    forall a | a in aggs ensures AlignedWith(a, e) {
      assert AlignedWith(a, log[i]);
    }
  }

  // ── Preservation, key by key ──────────────────────────────────────

  /** One event on one aligned slot: the prefix fold is kept, the version
      never falls, and it ends past the event unless the event is a gap. */
  lemma ApplySlotOk(aggs: Aggregators, log: Log, a: Aggregator, key: Key, slot: Slot, e: Event)
    requires Sane(aggs, log) && Committed(log, e)
    requires a in aggs && a.Hits(key, e) && AlignedType(aggs, key.aggType)
    requires SlotOk(aggs, log, key, slot)
    ensures var (slot', effect) := ApplySlot(a, slot, e);
            && SlotOk(aggs, log, key, slot')
            && slot.Version() <= slot'.Version()
            && (slot.entry.Some? ==> slot'.entry.Some?)
            && (effect.Gapped? <==> slot.Version() < e.revision)
            && (effect.Gapped? ==> slot' == slot)
            && (!effect.Gapped? ==> slot'.entry.Some? && e.revision < slot'.Version())
  {
    HitIsTheMatch(aggs, a, key, e);
    CommittedAligned(aggs, log, e);
    assert AlignedWith(a, e);
    var h := Stream(log, StreamOf(aggs, key));
    if slot.Version() == e.revision {
      PrefixFoldStep(aggs, key.aggType, h, e.revision);
      assert h[..0] == [];
    }
  }

  lemma ApplyEventOk(aggs: Aggregators, log: Log, reg: Reg, e: Event)
    requires Sane(aggs, log) && Committed(log, e) && RegOk(aggs, log, reg)
    ensures var r := ApplyEvent(aggs, reg, e);
            r.ok && RegOk(aggs, log, r.reg) && Advances(aggs, reg, r.reg)
  {
    CommittedAligned(aggs, log, e);
    AlignedEventsPass(aggs, |aggs|, reg, e);
    var r := ApplyEvent(aggs, reg, e);
    forall key ensures SlotOk(aggs, log, key, At(r.reg, key))
      ensures AlignedType(aggs, key.aggType) ==>
                && At(reg, key).Version() <= At(r.reg, key).Version()
                && (key in reg.entries ==> key in r.reg.entries)
    {
      ApplyEventAt(aggs, reg, e, key);
      assert SlotOk(aggs, log, key, At(reg, key));
      if Targets(aggs, key, e) && AlignedType(aggs, key.aggType) {
        ApplySlotOk(aggs, log, Matching(aggs, key.aggType, e.kind).value, key, At(reg, key), e);
      }
    }
  }

  /** Moving the watermark past an event is a fold when the event is foreign,
      and nothing when the entry is already past it. */
  lemma AdvanceSlotOk(aggs: Aggregators, log: Log, key: Key, slot: Slot, r: nat, position: nat)
    requires AlignedType(aggs, key.aggType) && SlotOk(aggs, log, key, slot) && slot.entry.Some?
    requires r < |Stream(log, StreamOf(aggs, key))| && r <= slot.Version()
    requires r == slot.Version() ==>
               Matching(aggs, key.aggType, Stream(log, StreamOf(aggs, key))[r].kind).None?
    ensures SlotOk(aggs, log, key, AdvanceSlot(slot, r, position))
    ensures AdvanceSlot(slot, r, position).Version() == if slot.Version() == r then r + 1 else slot.Version()
  {
    if slot.Version() == r {
      PrefixFoldStep(aggs, key.aggType, Stream(log, StreamOf(aggs, key)), r);
    }
  }

  /** Replacing one slot by a correct one that is no further back. */
  lemma PutOk(aggs: Aggregators, log: Log, reg: Reg, key: Key, slot: Slot)
    requires RegOk(aggs, log, reg) && SlotOk(aggs, log, key, slot)
    requires slot.entry.Some? && At(reg, key).Version() <= slot.Version()
    requires slot.prev == At(reg, key).prev
    ensures RegOk(aggs, log, Put(reg, key, slot)) && Advances(aggs, reg, Put(reg, key, slot))
    ensures At(Put(reg, key, slot), key) == slot
  {
    var reg' := Put(reg, key, slot);
    forall k ensures SlotOk(aggs, log, k, At(reg', k)) {
      assert SlotOk(aggs, log, k, At(reg, k));
    }
  }

  /** On its own stream, an aligned key is targeted by every kind it folds. */
  lemma TargetedByKind(aggs: Aggregators, log: Log, key: Key, e: Event)
    requires Sane(aggs, log) && Committed(log, e)
    requires AlignedType(aggs, key.aggType) && e.stream == StreamOf(aggs, key)
    ensures Targets(aggs, key, e) <==> Matching(aggs, key.aggType, e.kind).Some?
  {
    var m := Matching(aggs, key.aggType, e.kind);
    if m.Some? {
      CommittedAligned(aggs, log, e);
      assert AlignedWith(m.value, e);
      MatchIsAtHome(aggs, key.aggType, e.kind);
    }
  }

  /** A tail event on the repaired key itself: never a gap, and afterwards
      either already past the event or foreign to the key. */
  lemma TailEventApplies(aggs: Aggregators, log: Log, reg: Reg, key: Key, e: Event)
    requires Sane(aggs, log) && RegOk(aggs, log, reg)
    requires AlignedType(aggs, key.aggType) && key in reg.entries
    requires Committed(log, e) && e.stream == StreamOf(aggs, key)
    requires e.revision <= At(reg, key).Version()
    ensures var r := ApplyEvent(aggs, reg, e);
            && r.ok && !SelfGapped(r.out, key) && key in r.reg.entries
            && e.revision <= At(r.reg, key).Version()
            && (e.revision == At(r.reg, key).Version() ==> Matching(aggs, key.aggType, e.kind).None?)
  {
    ApplyEventOk(aggs, log, reg, e);
    ApplyEventAt(aggs, reg, e, key);
    assert SlotOk(aggs, log, key, At(reg, key));
    TargetedByKind(aggs, log, key, e);
    if Targets(aggs, key, e) {
      ApplySlotOk(aggs, log, Matching(aggs, key.aggType, e.kind).value, key, At(reg, key), e);
    }
  }

  /** One repaired tail event: the repaired entry was at or past it before,
      so it never gaps on its own key and ends past the event. */
  lemma RepairStepOk(aggs: Aggregators, log: Log, reg: Reg, key: Key, e: Event)
    requires Sane(aggs, log) && RegOk(aggs, log, reg)
    requires AlignedType(aggs, key.aggType) && key in reg.entries
    requires Committed(log, e) && e.stream == StreamOf(aggs, key)
    requires e.revision <= At(reg, key).Version()
    ensures !SelfGapped(ApplyEvent(aggs, reg, e).out, key)
    ensures var r := RepairStep(aggs, reg, key, e);
            && r.ok && RegOk(aggs, log, r.reg) && Advances(aggs, reg, r.reg)
            && key in r.reg.entries && e.revision < At(r.reg, key).Version()
  {
    ApplyEventOk(aggs, log, reg, e);
    TailEventApplies(aggs, log, reg, key, e);
    var mid := ApplyEvent(aggs, reg, e).reg;
    assert SlotOk(aggs, log, key, At(mid, key));
    AdvanceSlotOk(aggs, log, key, At(mid, key), e.revision, e.position);
    var slot := AdvanceSlot(At(mid, key), e.revision, e.position);
    PutOk(aggs, log, mid, key, slot);
    AdvancesTransitive(aggs, reg, mid, Put(mid, key, slot));
  }

  lemma AdvancesTransitive(aggs: Aggregators, a: Reg, b: Reg, c: Reg)
    requires Advances(aggs, a, b) && Advances(aggs, b, c)
    ensures Advances(aggs, a, c)
  {
  }

  ghost function Bounded(upto: Option<nat>, n: nat): nat {
    if upto.Some? && upto.value < n then upto.value else n
  }

  /** A tail repair from `first` carries the entry to the bound or the tail's
      end, however its peers on the stream lag or lead. */
  lemma {:induction false} RepairTailOk(aggs: Aggregators, log: Log, reg: Reg, rows: Rows, key: Key, first: nat,
      upto: Option<nat>)
    requires Sane(aggs, log) && RegOk(aggs, log, reg)
    requires AlignedType(aggs, key.aggType) && key in reg.entries
    requires first <= |Stream(log, StreamOf(aggs, key))| && first <= At(reg, key).Version()
    ensures var h := Stream(log, StreamOf(aggs, key));
            var r := RepairTail(aggs, reg, rows, key, h[first..], upto);
            && r.ok && r.rows == rows && RegOk(aggs, log, r.reg) && Advances(aggs, reg, r.reg)
            && key in r.reg.entries && Bounded(upto, |h|) <= At(r.reg, key).Version()
    decreases |Stream(log, StreamOf(aggs, key))| - first
  {
    var h := Stream(log, StreamOf(aggs, key));
    var tail := h[first..];
    StreamIsDense(log, StreamOf(aggs, key));
    if tail == [] || Past(upto, tail[0]) {
      assert RepairTail(aggs, reg, rows, key, tail, upto) == Repaired(reg, rows, true);
    } else {
      RepairStepOk(aggs, log, reg, key, h[first]);
      var r := RepairStep(aggs, reg, key, h[first]);
      RepairTailOk(aggs, log, r.reg, rows, key, first + 1, upto);
      RepairTailNext(aggs, reg, rows, key, h, first, upto);
      AdvancesTransitive(aggs, reg, r.reg, RepairTail(aggs, r.reg, rows, key, h[first + 1..], upto).reg);
    }
  }

  lemma {:induction false} RepairTailNext(aggs: Aggregators, reg: Reg, rows: Rows, key: Key, h: seq<Event>, first: nat,
      upto: Option<nat>)
    requires first < |h| && !Past(upto, h[first]) && RepairStep(aggs, reg, key, h[first]).ok
    ensures RepairTail(aggs, reg, rows, key, h[first..], upto)
         == RepairTail(aggs, RepairStep(aggs, reg, key, h[first]).reg, rows, key, h[first + 1..], upto)
  {
    assert h[first..][0] == h[first] && h[first..][1..] == h[first + 1..];
  }

  // ── Restore ───────────────────────────────────────────────────────

  lemma {:induction false} ReplayOneIsStep(aggs: Aggregators, n: nat, t: string, s: State, e: Event)
    requires WellFormedAggs(aggs) && n <= |aggs|
    ensures ReplayOne(aggs, n, t, s, e)
         == if exists j | 0 <= j < n :: aggs[j].aggType == t && aggs[j].kind == e.kind
            then Step(aggs, t, s, e) else s
  {
    if n > 0 {
      ReplayOneIsStep(aggs, n - 1, t, s, e);
      var last := aggs[n - 1];
      if last.aggType == t && last.kind == e.kind {
        var m := Matching(aggs, t, e.kind).value;
        var i :| 0 <= i < |aggs| && aggs[i] == m;
        assert SamePair(aggs[i], aggs[n - 1]);
        forall j | 0 <= j < n - 1 ensures !(aggs[j].aggType == t && aggs[j].kind == e.kind) {
          assert SamePair(aggs[j], aggs[n - 1]) ==> j == n - 1;
        }
      }
    }
  }

  lemma {:induction false} ReplayIsFold(aggs: Aggregators, t: string, h: seq<Event>, n: nat)
    requires WellFormedAggs(aggs) && Registered(aggs, t) && n <= |h|
    ensures ReplayOnto(aggs, t, PrefixFold(aggs, t, h[..n]), h[n..]) == PrefixFold(aggs, t, h)
    decreases |h| - n
  {
    if n == |h| {
      assert h[..n] == h;
    } else {
      ReplayOneIsStep(aggs, |aggs|, t, PrefixFold(aggs, t, h[..n]), h[n]);
      PrefixFoldStep(aggs, t, h, n);
      ReplayIsFold(aggs, t, h, n + 1);
      assert h[n..][1..] == h[n + 1..];
    }
  }

  /** A restore starts from the fold of a stream prefix and reads the rest. */
  lemma SeedIsPrefix(aggs: Aggregators, log: Log, rows: Rows, key: Key) returns (n: nat)
    requires RowsOk(aggs, log, rows) && AlignedType(aggs, key.aggType)
    ensures var h := Stream(log, StreamOf(aggs, key));
            var seed := SeedOf(Initial(aggs, key.aggType), LoadRow(rows, key));
            && n == (if seed.after.None? then 0 else seed.after.value + 1) <= |h|
            && seed.state == PrefixFold(aggs, key.aggType, h[..n])
            && ReadStream(log, StreamOf(aggs, key), seed.after) == h[n..]
  {
    var h := Stream(log, StreamOf(aggs, key));
    var snap := LoadRow(rows, key);
    if snap.Some? {
      assert SnapshotOk(aggs, log, key, snap.value);
    }
    var seed := SeedOf(Initial(aggs, key.aggType), snap);
    n := if seed.after.None? then 0 else seed.after.value + 1;
    assert h[..0] == [];
  }

  lemma HealedOk(aggs: Aggregators, log: Log, rows: Rows, key: Key)
    requires RowsOk(aggs, log, rows)
    ensures RowsOk(aggs, log, Healed(rows, key))
  {
  }

  /** Snapshot restore is genesis replay: from a good snapshot, from none and
      from an undecodable one, a restore of a vacant aligned key installs the
      fold of the whole stream as read, at the stream's length. It declines
      only when there is neither a snapshot nor an event. */
  lemma {:induction false} RestoreIsGenesisReplay(aggs: Aggregators, log: Log, reg: Reg, rows: Rows, key: Key)
    requires Sane(aggs, log) && RowsOk(aggs, log, rows)
    requires AlignedType(aggs, key.aggType) && key !in reg.entries
    ensures var h := Stream(log, StreamOf(aggs, key));
            var r := Restore(aggs, log, reg, rows, key, StreamOf(aggs, key).category);
            && (r.ok <==> h != [])
            && (r.ok ==>
                  (&& key in r.reg.entries
                   && r.reg.entries[key].version == |h|
                   && r.reg.entries[key].state == PrefixFold(aggs, key.aggType, h)))
            && (forall k | k != key || !r.ok :: At(r.reg, k) == At(reg, k))
            && RowsOk(aggs, log, r.rows)
  {
    HydrateIsReplay(aggs, log, reg, rows, key);
    HealedOk(aggs, log, rows, key);
  }

  /** Replaying the stream onto the seed installs the fold of all of it. */
  lemma {:induction false} HydrateIsReplay(aggs: Aggregators, log: Log, reg: Reg, rows: Rows, key: Key)
    requires Sane(aggs, log) && RowsOk(aggs, log, rows)
    requires AlignedType(aggs, key.aggType) && key !in reg.entries
    ensures var h := Stream(log, StreamOf(aggs, key));
            var snap := LoadRow(rows, key);
            var snapshotAt := if snap.Some? then snap.value.revision + 1 else 0;
            Hydrate(aggs, log, reg, key, StreamOf(aggs, key).category, snap)
            == if h == [] then (reg, false)
               else (Put(reg, key, Slot(Some(Entry(PrefixFold(aggs, key.aggType, h), |h|, 0, snapshotAt)),
                                        At(reg, key).prev)),
                     true)
  {
    var h := Stream(log, StreamOf(aggs, key));
    StreamIsDense(log, StreamOf(aggs, key));
    var n := SeedIsPrefix(aggs, log, rows, key);
    ReplayIsFold(aggs, key.aggType, h, n);
    var tail := h[n..];
    assert tail != [] ==> tail[|tail| - 1] == h[|h| - 1];
    HydrateFrom(aggs, log, reg, key, StreamOf(aggs, key).category, LoadRow(rows, key), tail, |h|,
                PrefixFold(aggs, key.aggType, h));
  }

  /** A restore into a vacant slot, given what its tail replays to. */
  lemma {:induction false} HydrateFrom(aggs: Aggregators, log: Log, reg: Reg, key: Key, subject: string,
      snap: Option<Snapshot>, tail: seq<Event>, n: nat, whole: State)
    requires Registered(aggs, key.aggType) && key !in reg.entries
    requires var seed := SeedOf(Initial(aggs, key.aggType), snap);
             && tail == ReadStream(log, StreamId(subject, key.id), seed.after)
             && whole == ReplayOnto(aggs, key.aggType, seed.state, tail)
             && (n == 0 <==> tail == [] && seed.after.None?)
             && (tail != [] ==> tail[|tail| - 1].revision == n - 1)
             && (tail == [] && seed.after.Some? ==> seed.after.value == n - 1)
    ensures var snapshotAt := if snap.Some? then snap.value.revision + 1 else 0;
            Hydrate(aggs, log, reg, key, subject, snap)
            == if n == 0 then (reg, false)
               else (Put(reg, key, Slot(Some(Entry(whole, n, 0, snapshotAt)), At(reg, key).prev)), true)
  {
  }

  lemma RestoreOk(aggs: Aggregators, log: Log, reg: Reg, rows: Rows, key: Key)
    requires Sane(aggs, log) && RegOk(aggs, log, reg) && RowsOk(aggs, log, rows)
    requires AlignedType(aggs, key.aggType)
    ensures var r := Restore(aggs, log, reg, rows, key, StreamOf(aggs, key).category);
            && RegOk(aggs, log, r.reg) && RowsOk(aggs, log, r.rows) && Advances(aggs, reg, r.reg)
            && (!r.ok ==> r.reg == reg)
  {
    if key !in reg.entries {
      RestoreIsGenesisReplay(aggs, log, reg, rows, key);
      var r := Restore(aggs, log, reg, rows, key, StreamOf(aggs, key).category);
      if r.ok {
        var h := Stream(log, StreamOf(aggs, key));
        assert h[..|h|] == h;
        PutOk(aggs, log, reg, key, At(r.reg, key));
        assert r.reg == Put(reg, key, At(r.reg, key));
      }
    }
  }

  // ── Gap repair and convergence ────────────────────────────────────

  ghost predicate RealGap(aggs: Aggregators, log: Log, reg: Reg, gap: FoldGap, e: Event) {
    && AlignedType(aggs, gap.aggType)
    && StreamOf(aggs, gap.Key()) == StreamId(gap.subject, gap.id) == e.stream
    && gap.expected <= At(reg, gap.Key()).Version()
    && gap.expected < |Stream(log, e.stream)|
  }

  lemma RepairGapOk(aggs: Aggregators, log: Log, reg: Reg, rows: Rows, gap: FoldGap, e: Event, strict: bool)
    requires Sane(aggs, log) && RegOk(aggs, log, reg) && RowsOk(aggs, log, rows)
    requires Committed(log, e) && RealGap(aggs, log, reg, gap, e)
    ensures var r := RepairGap(aggs, log, reg, rows, gap, if strict then Some(e.revision) else None);
            && r.ok && RegOk(aggs, log, r.reg) && RowsOk(aggs, log, r.rows) && Advances(aggs, reg, r.reg)
            && e.revision <= At(r.reg, gap.Key()).Version()
  {
    var key := gap.Key();
    var upto := if strict then Some(e.revision) else None;
    var h := Stream(log, e.stream);
    if !strict && key !in reg.entries {
      RestoreIsGenesisReplay(aggs, log, reg, rows, key);
      RestoreOk(aggs, log, reg, rows, key);
    } else {
      var seeded := Seeded(aggs, reg, key, upto);
      if seeded != reg {
        assert h[..0] == [];
        PutOk(aggs, log, reg, key, InstallSlot(At(reg, key), Initial(aggs, key.aggType), 0, 0));
      }
      assert ReadStream(log, e.stream, AfterOf(gap.expected)) == h[gap.expected..];
      RepairTailOk(aggs, log, seeded, rows, key, gap.expected, upto);
      AdvancesTransitive(aggs, reg, seeded, RepairTail(aggs, seeded, rows, key, h[gap.expected..], upto).reg);
    }
  }

  lemma {:induction false} RepairGapsOk(aggs: Aggregators, log: Log, reg: Reg, rows: Rows, gaps: seq<FoldGap>,
      e: Event, strict: bool)
    requires Sane(aggs, log) && RegOk(aggs, log, reg) && RowsOk(aggs, log, rows)
    requires Committed(log, e) && forall g | g in gaps :: RealGap(aggs, log, reg, g, e)
    ensures var r := RepairGaps(aggs, log, reg, rows, gaps, if strict then Some(e.revision) else None);
            && r.ok && RegOk(aggs, log, r.reg) && RowsOk(aggs, log, r.rows) && Advances(aggs, reg, r.reg)
            && (forall g | g in gaps :: e.revision <= At(r.reg, g.Key()).Version())
    decreases |gaps|
  {
    if gaps != [] {
      var upto := if strict then Some(e.revision) else None;
      RepairGapOk(aggs, log, reg, rows, gaps[0], e, strict);
      var r := RepairGap(aggs, log, reg, rows, gaps[0], upto);
      forall g | g in gaps[1..] ensures RealGap(aggs, log, r.reg, g, e) {
        assert RealGap(aggs, log, reg, g, e);
        assert At(reg, g.Key()).Version() <= At(r.reg, g.Key()).Version();
      }
      RepairGapsOk(aggs, log, r.reg, r.rows, gaps[1..], e, strict);
      var all := RepairGaps(aggs, log, r.reg, r.rows, gaps[1..], upto);
      AdvancesTransitive(aggs, reg, r.reg, all.reg);
      assert AlignedType(aggs, gaps[0].Key().aggType);
    }
  }

  /** No aligned entry the event reaches is still behind it. */
  ghost predicate CaughtUp(aggs: Aggregators, reg: Reg, e: Event) {
    forall key: Key | AlignedType(aggs, key.aggType) && Targets(aggs, key, e) ::
      e.revision <= At(reg, key).Version()
  }

  /** Once caught up, a round reports no gap. */
  lemma CaughtUpHasNoGaps(aggs: Aggregators, log: Log, reg: Reg, e: Event)
    requires Sane(aggs, log) && Committed(log, e) && RegOk(aggs, log, reg) && CaughtUp(aggs, reg, e)
    ensures ApplyEvent(aggs, reg, e).out.gaps == []
  {
    ApplyEventOk(aggs, log, reg, e);
    var r := ApplyEvent(aggs, reg, e);
    if r.out.gaps != [] {
      var g := r.out.gaps[0];
      assert g in r.out.gaps;
      GapsAreReal(aggs, |aggs|, reg, e, g);
      ApplyEventAt(aggs, reg, e, g.Key());
      assert false;
    }
  }

  /** One round of repairs leaves every aggregate the event reaches at or past
      it: the gapped ones by repair, the others because they folded or had
      already folded it. */
  lemma RoundCatchesUp(aggs: Aggregators, log: Log, reg: Reg, rows: Rows, e: Event, strict: bool)
    requires Sane(aggs, log) && Committed(log, e) && RegOk(aggs, log, reg) && RowsOk(aggs, log, rows)
    ensures var r := ApplyEvent(aggs, reg, e);
            var f := RepairGaps(aggs, log, r.reg, rows, r.out.gaps, if strict then Some(e.revision) else None);
            && r.ok && f.ok && RegOk(aggs, log, f.reg) && RowsOk(aggs, log, f.rows)
            && Advances(aggs, reg, f.reg) && CaughtUp(aggs, f.reg, e)
  {
    ApplyEventOk(aggs, log, reg, e);
    var r := ApplyEvent(aggs, reg, e);
    forall g | g in r.out.gaps ensures RealGap(aggs, log, r.reg, g, e) {
      GapsAreReal(aggs, |aggs|, reg, e, g);
      assert At(reg, g.Key()).Version() <= At(r.reg, g.Key()).Version();
    }
    RepairGapsOk(aggs, log, r.reg, rows, r.out.gaps, e, strict);
    var f := RepairGaps(aggs, log, r.reg, rows, r.out.gaps, if strict then Some(e.revision) else None);
    AdvancesTransitive(aggs, reg, r.reg, f.reg);
    forall key: Key | AlignedType(aggs, key.aggType) && Targets(aggs, key, e)
      ensures e.revision <= At(f.reg, key).Version()
    {
      var a := Matching(aggs, key.aggType, e.kind).value;
      ApplyEventAt(aggs, reg, e, key);
      assert SlotOk(aggs, log, key, At(reg, key));
      ApplySlotOk(aggs, log, a, key, At(reg, key), e);
      assert At(r.reg, key).Version() <= At(f.reg, key).Version();
      var (_, effect) := ApplySlot(a, At(reg, key), e);
      if effect.Gapped? {
        var g := FoldGap(key.aggType, a.subject, key.id, effect.expected);
        assert g in r.out.gaps && g.Key() == key;
      }
    }
  }

  /** `fold_event` never reaches its "did not converge" bail sequentially on
      a dense stream: two rounds always suffice, strict or not, from any
      correct registry, with or without snapshots, and the registry stays
      correct. */
  lemma FoldEventConverges(aggs: Aggregators, log: Log, reg: Reg, rows: Rows, e: Event, strict: bool, rounds: nat)
    requires Sane(aggs, log) && Committed(log, e) && RegOk(aggs, log, reg) && RowsOk(aggs, log, rows)
    requires 2 <= rounds
    ensures var f := FoldEvent(aggs, log, reg, rows, e, strict, rounds);
            && f.FoldOk? && f.out.gaps == []
            && f == FoldEvent(aggs, log, reg, rows, e, strict, 2)
            && RegOk(aggs, log, f.reg) && RowsOk(aggs, log, f.rows) && Advances(aggs, reg, f.reg)
            && (forall key: Key | AlignedType(aggs, key.aggType) && Targets(aggs, key, e) ::
                  e.revision < At(f.reg, key).Version())
  {
    var r := ApplyEvent(aggs, reg, e);
    RoundCatchesUp(aggs, log, reg, rows, e, strict);
    ApplyEventOk(aggs, log, reg, e);
    if r.out.gaps == [] {
      AppliedPast(aggs, log, reg, e);
    } else {
      var f := RepairGaps(aggs, log, r.reg, rows, r.out.gaps, if strict then Some(e.revision) else None);
      CaughtUpHasNoGaps(aggs, log, f.reg, e);
      ApplyEventOk(aggs, log, f.reg, e);
      AppliedPast(aggs, log, f.reg, e);
      AdvancesTransitive(aggs, reg, f.reg, ApplyEvent(aggs, f.reg, e).reg);
      assert FoldEvent(aggs, log, f.reg, f.rows, e, strict, rounds - 1)
          == FoldEvent(aggs, log, f.reg, f.rows, e, strict, 1);
    }
  }

  /** A round without gaps leaves every targeted aligned entry past the event. */
  lemma AppliedPast(aggs: Aggregators, log: Log, reg: Reg, e: Event)
    requires Sane(aggs, log) && Committed(log, e) && RegOk(aggs, log, reg)
    requires ApplyEvent(aggs, reg, e).out.gaps == []
    ensures forall key: Key | AlignedType(aggs, key.aggType) && Targets(aggs, key, e) ::
              e.revision < At(ApplyEvent(aggs, reg, e).reg, key).Version()
  {
    ApplyEventOk(aggs, log, reg, e);
    forall key: Key | AlignedType(aggs, key.aggType) && Targets(aggs, key, e)
      ensures e.revision < At(ApplyEvent(aggs, reg, e).reg, key).Version()
    {
      ApplyEventAt(aggs, reg, e, key);
      assert SlotOk(aggs, log, key, At(reg, key));
      ApplySlotOk(aggs, log, Matching(aggs, key.aggType, e.kind).value, key, At(reg, key), e);
    }
  }
}
