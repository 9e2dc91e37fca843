/** The registry's operations as functions on values. `AggregatorRegistry`
    implements them on mutable maps; the lemmas here and in the run and
    interleaving models are about these functions.

    Everything the registry does is per key, so the core is what one event
    does to one key's slot. */
module RegistrySpec {
  import opened JsonValue
  import opened EventLog
  import opened Folding

  /** State with its fold watermarks: `version` is the next expected stream
      revision, `lastPos` the position of the last folded event. */
  datatype Entry = Entry(state: State, version: nat, lastPos: nat, snapshotAt: nat)

  /** What the registry holds for one key: its entry and its `:prev` slot. */
  datatype Slot = Slot(entry: Option<Entry>, prev: Option<State>) {
    function Version(): nat {
      if entry.None? then 0 else entry.value.version
    }
  }

  /** The registry's maps; `:prev` slots are kept apart from entries. */
  datatype Reg = Reg(entries: map<Key, Entry>, prevs: map<Key, State>)

  const EMPTY_REG := Reg(map[], map[])

  function At(reg: Reg, key: Key): Slot {
    Slot(if key in reg.entries then Some(reg.entries[key]) else None,
         if key in reg.prevs then Some(reg.prevs[key]) else None)
  }

  function Put(reg: Reg, key: Key, slot: Slot): Reg {
    Reg(if slot.entry.Some? then reg.entries[key := slot.entry.value] else reg.entries,
        if slot.prev.Some? then reg.prevs[key := slot.prev.value] else reg.prevs)
  }

  // ── One event, one key ────────────────────────────────────────────

  datatype Verdict = Fold | Skip(exactPrev: bool) | Gap(expected: nat)

  /** The idempotency gate. */
  function Gate(a: Aggregator, entry: Option<Entry>, e: Event): Verdict {
    var version := if entry.None? then 0 else entry.value.version;
    if a.Aligned() then
      if e.revision < version then Skip(e.revision + 1 == version)
      else if e.revision > version then Gap(version)
      else Fold
    else if entry.Some? then
      var lastPos := entry.value.lastPos;
      if e.position > lastPos || (e.position == lastPos && e.revision + 1 > version) then Fold
      else Skip(e.position == lastPos && e.revision + 1 == version)
    else Fold
  }

  datatype Effect =
    | Folded(pre: State, post: State)
    | Skipped(prev: State, curr: State)
    | Gapped(expected: nat)

  function ApplySlot(a: Aggregator, slot: Slot, e: Event): (Slot, Effect) {
    var curr := if slot.entry.None? then a.initial else slot.entry.value.state;
    match Gate(a, slot.entry, e)
    case Fold =>
      var post := a.apply(curr, e.payload);
      var snapshotAt := if slot.entry.None? then 0 else slot.entry.value.snapshotAt;
      (Slot(Some(Entry(post, e.revision + 1, e.position, snapshotAt)), Some(curr)), Folded(curr, post))
    case Skip(exactPrev) =>
      var prev := if exactPrev && slot.prev.Some? then slot.prev.value else curr;
      (slot, Skipped(prev, curr))
    case Gap(expected) => (slot, Gapped(expected))
  }

  /** The identity fold of a foreign stream event; nothing on a vacant slot. */
  function AdvanceSlot(slot: Slot, revision: nat, position: nat): Slot {
    if slot.entry.None? then slot
    else
      var e := slot.entry.value;
      slot.(entry := Some(e.(
        version := if revision + 1 > e.version then revision + 1 else e.version,
        lastPos := if position > e.lastPos then position else e.lastPos)))
  }

  /** Install hydrated state, only when it advances the entry. */
  function InstallSlot(slot: Slot, state: State, version: nat, snapshotAt: nat): Slot {
    if slot.entry.None? then slot.(entry := Some(Entry(state, version, 0, snapshotAt)))
    else if version > slot.entry.value.version then
      slot.(entry := Some(Entry(state, version, slot.entry.value.lastPos, snapshotAt)))
    else slot
  }

  // ── One event, every aggregator ───────────────────────────────────

  datatype FoldGap = FoldGap(aggType: string, subject: string, id: Uuid, expected: nat) {
    function Key(): Key {
      Folding.Key.Key(aggType, id)
    }
  }

  datatype Outcome = Outcome(pairs: map<Key, (State, State)>, applied: bool, gaps: seq<FoldGap>)

  const NO_OUTCOME := Outcome(map[], false, [])

  /** Registry and outcome so far; `ok` is false once a fold was misaligned. */
  datatype Applied = Applied(reg: Reg, out: Outcome, ok: bool)

  function Note(out: Outcome, a: Aggregator, key: Key, effect: Effect): Outcome {
    match effect
    case Folded(pre, post) => out.(pairs := out.pairs[key := (pre, post)], applied := true)
    case Skipped(prev, curr) => out.(pairs := out.pairs[key := (prev, curr)])
    case Gapped(expected) => out.(gaps := out.gaps + [FoldGap(key.aggType, a.subject, key.id, expected)])
  }

  function ApplyNext(a: Aggregator, r: Applied, e: Event): Applied {
    if a.kind != e.kind then r
    else
      match a.idOf(e.payload)
      case None => r
      case Some(id) =>
        if a.Aligned() && (id != e.stream.subject || a.subject != e.stream.category) then r.(ok := false)
        else
          var key := Key(a.aggType, id);
          var (slot, effect) := ApplySlot(a, At(r.reg, key), e);
          Applied(Put(r.reg, key, slot), Note(r.out, a, key, effect), true)
  }

  /** `apply_event` over the first `n` aggregators. */
  function ApplyUpto(aggs: Aggregators, n: nat, reg: Reg, e: Event): Applied
    requires n <= |aggs|
  {
    if n == 0 then Applied(reg, NO_OUTCOME, true)
    else
      var r := ApplyUpto(aggs, n - 1, reg, e);
      if r.ok then ApplyNext(aggs[n - 1], r, e) else r
  }

  function ApplyEvent(aggs: Aggregators, reg: Reg, e: Event): Applied {
    ApplyUpto(aggs, |aggs|, reg, e)
  }

  // ── Pointwise description of ApplyEvent ───────────────────────────

  /** What the outcome says about `key` for an effect. */
  ghost predicate Reported(out: Outcome, a: Aggregator, key: Key, effect: Effect) {
    match effect
    case Folded(pre, post) => key in out.pairs && out.pairs[key] == (pre, post) && out.applied
    case Skipped(prev, curr) => key in out.pairs && out.pairs[key] == (prev, curr)
    case Gapped(x) => key !in out.pairs && FoldGap(key.aggType, a.subject, key.id, x) in out.gaps
  }

  /** Every event of a log compatible with the aggregators passes the
      stream-alignment assertion. */
  lemma {:induction false} AlignedEventsPass(aggs: Aggregators, n: nat, reg: Reg, e: Event)
    requires n <= |aggs| && forall a | a in aggs :: AlignedWith(a, e)
    ensures ApplyUpto(aggs, n, reg, e).ok
  {
    if n > 0 {
      AlignedEventsPass(aggs, n - 1, reg, e);
      assert AlignedWith(aggs[n - 1], e);
    }
  }

  /** A key no aggregator hits is untouched and unreported. */
  lemma {:induction false} ApplyMisses(aggs: Aggregators, n: nat, reg: Reg, e: Event, key: Key)
    requires n <= |aggs| && forall j | 0 <= j < n :: !aggs[j].Hits(key, e)
    ensures var r := ApplyUpto(aggs, n, reg, e);
            && At(r.reg, key) == At(reg, key)
            && key !in r.out.pairs
            && (forall g | g in r.out.gaps :: g.Key() != key)
  {
    if n > 0 {
      ApplyMisses(aggs, n - 1, reg, e, key);
    }
  }

  /** The one aggregator that hits a key does to its slot exactly `ApplySlot`,
      whatever the other aggregators do around it. */
  lemma {:induction false} ApplyHits(aggs: Aggregators, n: nat, reg: Reg, e: Event, key: Key, j: nat)
    requires WellFormedAggs(aggs) && j < n <= |aggs| && aggs[j].Hits(key, e)
    requires ApplyUpto(aggs, n, reg, e).ok
    ensures var r := ApplyUpto(aggs, n, reg, e);
            var (slot, effect) := ApplySlot(aggs[j], At(reg, key), e);
            && At(r.reg, key) == slot
            && Reported(r.out, aggs[j], key, effect)
            && (effect.Gapped? || forall g | g in r.out.gaps :: g.Key() != key)
  {
    var last := aggs[n - 1];
    if j == n - 1 {
      forall i | 0 <= i < n - 1 ensures !aggs[i].Hits(key, e) {
        assert SamePair(aggs[i], aggs[j]) ==> i == j;
      }
      ApplyMisses(aggs, n - 1, reg, e, key);
    } else {
      ApplyHits(aggs, n - 1, reg, e, key, j);
      assert SamePair(aggs[n - 1], aggs[j]) ==> n - 1 == j;
    }
  }

  /** Every reported gap is the gap of the aggregator it names. */
  lemma {:induction false} GapsAreReal(aggs: Aggregators, n: nat, reg: Reg, e: Event, g: FoldGap)
    requires WellFormedAggs(aggs) && n <= |aggs| && g in ApplyUpto(aggs, n, reg, e).out.gaps
    requires ApplyUpto(aggs, n, reg, e).ok
    ensures exists j | 0 <= j < n :: aggs[j].Hits(g.Key(), e) && aggs[j].subject == g.subject
    ensures AlignedType(aggs, g.aggType) && StreamOf(aggs, g.Key()) == StreamId(g.subject, g.id)
    ensures StreamOf(aggs, g.Key()) == e.stream
    ensures g.expected == At(reg, g.Key()).Version() < e.revision
  {
    var r := ApplyUpto(aggs, n - 1, reg, e);
    var a := aggs[n - 1];
    if g in r.out.gaps {
      GapsAreReal(aggs, n - 1, reg, e, g);
      var j :| 0 <= j < n - 1 && aggs[j].Hits(g.Key(), e) && aggs[j].subject == g.subject;
      assert 0 <= j < n;
    } else {
      assert a.Hits(g.Key(), e);
      HitIsTheMatch(aggs, a, g.Key(), e);
      forall i | 0 <= i < n - 1 ensures !aggs[i].Hits(g.Key(), e) {
        assert SamePair(aggs[i], aggs[n - 1]) ==> i == n - 1;
      }
      ApplyMisses(aggs, n - 1, reg, e, g.Key());
    }
  }

  /** The two cases together, for a whole event. */
  lemma ApplyEventAt(aggs: Aggregators, reg: Reg, e: Event, key: Key)
    requires WellFormedAggs(aggs) && ApplyEvent(aggs, reg, e).ok
    ensures var r := ApplyEvent(aggs, reg, e);
            if Targets(aggs, key, e) then
              var a := Matching(aggs, key.aggType, e.kind).value;
              var (slot, effect) := ApplySlot(a, At(reg, key), e);
              && At(r.reg, key) == slot
              && Reported(r.out, a, key, effect)
              && (effect.Gapped? || forall g | g in r.out.gaps :: g.Key() != key)
            else
              At(r.reg, key) == At(reg, key) && key !in r.out.pairs
              && forall g | g in r.out.gaps :: g.Key() != key
  {
    if Targets(aggs, key, e) {
      var a := Matching(aggs, key.aggType, e.kind).value;
      var j :| 0 <= j < |aggs| && aggs[j] == a;
      ApplyHits(aggs, |aggs|, reg, e, key, j);
    } else {
      forall j | 0 <= j < |aggs| ensures !aggs[j].Hits(key, e) {
        if aggs[j].Hits(key, e) { HitIsTheMatch(aggs, aggs[j], key, e); }
      }
      ApplyMisses(aggs, |aggs|, reg, e, key);
    }
  }
}
