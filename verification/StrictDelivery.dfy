/** Consumer registries. A consumer delivers the log from its start, in order
    but at least once: it may rewind and redeliver anything it has delivered.
    Through strict `fold_event` its registry is, for every key, the fold of
    exactly the delivered prefix, and each first delivery reports the exact
    transition. */
module StrictDelivery {
  import opened JsonValue
  import opened EventLog
  import opened Folding
  import opened RegistrySpec
  import opened RepairSpec

  /** The delivered events some aggregator folds into `key`. */
  function Targeted(aggs: Aggregators, key: Key, d: Log): seq<Event> {
    if d == [] then []
    else
      var front := Targeted(aggs, key, d[..|d| - 1]);
      if Targets(aggs, key, d[|d| - 1]) then front + [d[|d| - 1]] else front
  }

  /** The state a consumer reads for a key. */
  function StateIn(aggs: Aggregators, reg: Reg, key: Key): State
    requires Registered(aggs, key.aggType)
  {
    if key in reg.entries then reg.entries[key].state else Initial(aggs, key.aggType)
  }

  // ── The per-key invariant ─────────────────────────────────────────

  /** `h` is what has been delivered of the key's own stream. */
  ghost predicate AlignedOk(aggs: Aggregators, t: string, h: seq<Event>, slot: Slot)
    requires Registered(aggs, t)
  {
    var v := slot.Version();
    && v <= |h|
    && (slot.entry.Some? ==> slot.entry.value.state == PrefixFold(aggs, t, h[..v]))
    && (forall r | v <= r < |h| :: Matching(aggs, t, h[r].kind).None?)
    && (0 < v && Matching(aggs, t, h[v - 1].kind).Some? ==> slot.prev == Some(PrefixFold(aggs, t, h[..v - 1])))
  }

  /** `h` is the delivered facts the key folds, from whatever streams. */
  ghost predicate FanInOk(aggs: Aggregators, t: string, h: seq<Event>, slot: Slot)
    requires Registered(aggs, t)
  {
    if h == [] then slot.entry.None?
    else
      var last := h[|h| - 1];
      && slot.entry.Some?
      && slot.entry.value.state == PrefixFold(aggs, t, h)
      && slot.entry.value.lastPos == last.position
      && slot.entry.value.version == last.revision + 1
      && slot.prev == Some(PrefixFold(aggs, t, h[..|h| - 1]))
  }

  /** The slot is exactly the fold of the delivered prefix `d`, with a
      watermark no unfolded event of the key lies behind, and a `:prev` slot
      holding the state before the key's last fold. */
  ghost predicate KeyOk(aggs: Aggregators, d: Log, key: Key, slot: Slot) {
    Registered(aggs, key.aggType) ==>
      if AlignedType(aggs, key.aggType) then AlignedOk(aggs, key.aggType, Stream(d, StreamOf(aggs, key)), slot)
      else FanInOk(aggs, key.aggType, Targeted(aggs, key, d), slot)
  }

  ghost predicate AllOk(aggs: Aggregators, d: Log, reg: Reg) {
    forall key :: KeyOk(aggs, d, key, At(reg, key))
  }

  lemma {:induction false} TargetedFold(aggs: Aggregators, key: Key, d: Log)
    requires Registered(aggs, key.aggType)
    ensures PrefixFold(aggs, key.aggType, Targeted(aggs, key, d)) == KeyFold(aggs, key, d)
  {
    if d != [] {
      var front := d[..|d| - 1];
      TargetedFold(aggs, key, front);
      if Targets(aggs, key, d[|d| - 1]) {
        var h := Targeted(aggs, key, front);
        assert (h + [d[|d| - 1]])[..|h|] == h;
      }
    }
  }

  /** What the invariant says to a reader: the state is the fold of the
      delivered prefix. */
  lemma KeyOkMeansFold(aggs: Aggregators, d: Log, key: Key, reg: Reg)
    requires Sane(aggs, d) && Registered(aggs, key.aggType) && KeyOk(aggs, d, key, At(reg, key))
    ensures StateIn(aggs, reg, key) == KeyFold(aggs, key, d)
  {
    if AlignedType(aggs, key.aggType) {
      var h, v := Stream(d, StreamOf(aggs, key)), At(reg, key).Version();
      KeyFoldIsStreamFold(aggs, key, d);
      ForeignStretch(aggs, key.aggType, h, v);
      assert h[..0] == [];
    } else {
      TargetedFold(aggs, key, d);
    }
  }

  // ── One slot, one event ───────────────────────────────────────────

  lemma FoldSnoc(aggs: Aggregators, t: string, h: seq<Event>, e: Event)
    requires Registered(aggs, t)
    ensures PrefixFold(aggs, t, h + [e]) == Step(aggs, t, PrefixFold(aggs, t, h), e)
  {
  }

  lemma AlignedFolds(aggs: Aggregators, a: Aggregator, t: string, h: seq<Event>, e: Event, slot: Slot)
    requires Registered(aggs, t) && Matching(aggs, t, e.kind) == Some(a)
    requires a.Aligned() && a.initial == Initial(aggs, t)
    requires AlignedOk(aggs, t, h, slot) && slot.Version() == e.revision == |h|
    ensures var (slot', effect) := ApplySlot(a, slot, e);
            && AlignedOk(aggs, t, h + [e], slot')
            && effect == Folded(PrefixFold(aggs, t, h), PrefixFold(aggs, t, h + [e]))
  {
    FoldSnoc(aggs, t, h, e);
    assert h[..|h|] == h == (h + [e])[..|h|] && (h + [e])[..|h| + 1] == h + [e];
  }

  lemma AlignedSkips(aggs: Aggregators, a: Aggregator, t: string, h: seq<Event>, e: Event, slot: Slot)
    requires Registered(aggs, t) && Matching(aggs, t, e.kind) == Some(a)
    requires a.Aligned() && AlignedOk(aggs, t, h + [e], slot) && e.revision == |h|
    ensures ApplySlot(a, slot, e) == (slot, Skipped(PrefixFold(aggs, t, h), PrefixFold(aggs, t, h + [e])))
  {
    assert (h + [e])[|h|] == e;
    assert slot.Version() == |h| + 1;
    assert (h + [e])[..|h|] == h && (h + [e])[..|h| + 1] == h + [e];
  }

  lemma AlignedForeign(aggs: Aggregators, t: string, h: seq<Event>, e: Event, slot: Slot)
    requires Registered(aggs, t) && Matching(aggs, t, e.kind).None? && AlignedOk(aggs, t, h, slot)
    ensures AlignedOk(aggs, t, h + [e], slot)
  {
    var v := slot.Version();
    assert (h + [e])[..v] == h[..v];
    if 0 < v { assert (h + [e])[..v - 1] == h[..v - 1]; }
  }

  lemma FanInFolds(aggs: Aggregators, a: Aggregator, t: string, h: seq<Event>, e: Event, slot: Slot)
    requires Registered(aggs, t) && Matching(aggs, t, e.kind) == Some(a)
    requires !a.Aligned() && a.initial == Initial(aggs, t) && FanInOk(aggs, t, h, slot)
    requires h != [] ==> Before(h[|h| - 1], e)
    ensures var (slot', effect) := ApplySlot(a, slot, e);
            && FanInOk(aggs, t, h + [e], slot')
            && effect == Folded(PrefixFold(aggs, t, h), PrefixFold(aggs, t, h + [e]))
  {
  }

  lemma FanInSkips(aggs: Aggregators, a: Aggregator, t: string, h: seq<Event>, e: Event, slot: Slot)
    requires Registered(aggs, t) && Matching(aggs, t, e.kind) == Some(a)
    requires !a.Aligned() && FanInOk(aggs, t, h + [e], slot)
    ensures ApplySlot(a, slot, e) == (slot, Skipped(PrefixFold(aggs, t, h), PrefixFold(aggs, t, h + [e])))
  {
  }

  /** An event of the delivered prefix, seen again, is skipped. */
  lemma {:induction false} DeliveredIsTargeted(aggs: Aggregators, key: Key, d: Log, i: nat) returns (j: nat)
    requires i < |d| && Targets(aggs, key, d[i])
    ensures j < |Targeted(aggs, key, d)| && Targeted(aggs, key, d)[j] == d[i]
  {
    var front := d[..|d| - 1];
    if i == |front| {
      j := |Targeted(aggs, key, front)|;
    } else {
      j := DeliveredIsTargeted(aggs, key, front, i);
    }
  }

  lemma {:induction false} LastTargeted(aggs: Aggregators, key: Key, d: Log) returns (i: nat)
    requires Targeted(aggs, key, d) != []
    ensures i < |d| && d[i] == Targeted(aggs, key, d)[|Targeted(aggs, key, d)| - 1]
    ensures Targets(aggs, key, d[i])
    ensures Targeted(aggs, key, d[..i]) == Targeted(aggs, key, d)[..|Targeted(aggs, key, d)| - 1]
    ensures forall k | i < k < |d| :: !Targets(aggs, key, d[k])
  {
    if Targets(aggs, key, d[|d| - 1]) {
      i := |d| - 1;
    } else {
      i := LastTargeted(aggs, key, d[..|d| - 1]);
      assert d[..|d| - 1][..i] == d[..i];
    }
  }

  lemma SkipsDelivered(aggs: Aggregators, d: Log, key: Key, slot: Slot, i: nat)
    requires Sane(aggs, d) && i < |d| && Targets(aggs, key, d[i]) && KeyOk(aggs, d, key, slot)
    ensures var a := Matching(aggs, key.aggType, d[i].kind).value;
            var (slot', effect) := ApplySlot(a, slot, d[i]);
            && slot' == slot && effect.Skipped? && slot.entry.Some? && effect.curr == slot.entry.value.state
            && (effect.prev == effect.curr || Some(effect.prev) == slot.prev)
  {
    var e := d[i];
    var a := Matching(aggs, key.aggType, e.kind).value;
    HitIsTheMatch(aggs, a, key, e);
    if a.Aligned() {
      assert AlignedWith(a, e);
      EventInStream(d, i);
    } else {
      var j := DeliveredIsTargeted(aggs, key, d, i);
      var last := LastTargeted(aggs, key, d);
      if i < last { LogOrder(d, i, last); }
    }
  }

  /** The event that extends the delivered prefix extends its own stream. */
  lemma NextInStream(d: Log, e: Event)
    requires WellFormed(d + [e])
    ensures Stream(d + [e], e.stream) == Stream(d, e.stream) + [e]
    ensures forall s | s != e.stream :: Stream(d + [e], s) == Stream(d, s)
    ensures e.revision == |Stream(d, e.stream)|
  {
    assert (d + [e])[..|d|] == d;
    assert DenseAt(d + [e], |d|);
  }

  lemma NextTargeted(aggs: Aggregators, key: Key, d: Log, e: Event)
    ensures Targeted(aggs, key, d + [e]) == Targeted(aggs, key, d) + if Targets(aggs, key, e) then [e] else []
  {
  }

  lemma TargetedAggregator(aggs: Aggregators, d: Log, e: Event, key: Key)
    requires Sane(aggs, d) && e in d && Targets(aggs, key, e)
    ensures Registered(aggs, key.aggType)
    ensures var a := Matching(aggs, key.aggType, e.kind).value;
            && a.initial == Initial(aggs, key.aggType)
            && (a.Aligned() <==> AlignedType(aggs, key.aggType))
            && (a.Aligned() ==> StreamOf(aggs, key) == e.stream)
  {
    var a := Matching(aggs, key.aggType, e.kind).value;
    HitIsTheMatch(aggs, a, key, e);
    assert AlignedWith(a, e);
  }

  lemma NewestTargeted(aggs: Aggregators, d: Log, e: Event, key: Key)
    requires Sane(aggs, d + [e]) && Targeted(aggs, key, d) != []
    ensures Before(Targeted(aggs, key, d)[|Targeted(aggs, key, d)| - 1], e)
  {
    var last := LastTargeted(aggs, key, d);
    assert (d + [e])[last] == d[last] && (d + [e])[|d|] == e;
    LogOrder(d + [e], last, |d|);
  }

  /** The fold of a delivered prefix, in the form the slot invariants use. */
  ghost function History(aggs: Aggregators, key: Key, d: Log): seq<Event>
    requires Registered(aggs, key.aggType)
  {
    if AlignedType(aggs, key.aggType) then Stream(d, StreamOf(aggs, key)) else Targeted(aggs, key, d)
  }

  lemma HistoryFold(aggs: Aggregators, key: Key, d: Log)
    requires Sane(aggs, d) && Registered(aggs, key.aggType)
    ensures PrefixFold(aggs, key.aggType, History(aggs, key, d)) == KeyFold(aggs, key, d)
  {
    if AlignedType(aggs, key.aggType) {
      KeyFoldIsStreamFold(aggs, key, d);
    } else {
      TargetedFold(aggs, key, d);
    }
  }

  /** The next event on a slot whose watermark has reached it. */
  lemma FoldsNext(aggs: Aggregators, d: Log, e: Event, key: Key, slot: Slot)
    requires Sane(aggs, d + [e]) && Sane(aggs, d) && Targets(aggs, key, e) && KeyOk(aggs, d, key, slot)
    requires AlignedType(aggs, key.aggType) ==> slot.Version() == e.revision
    ensures var a := Matching(aggs, key.aggType, e.kind).value;
            var (slot', effect) := ApplySlot(a, slot, e);
            && KeyOk(aggs, d + [e], key, slot')
            && Registered(aggs, key.aggType)
            && effect == Folded(KeyFold(aggs, key, d), KeyFold(aggs, key, d + [e]))
  {
    var a := Matching(aggs, key.aggType, e.kind).value;
    assert (d + [e])[|d|] == e;
    TargetedAggregator(aggs, d + [e], e, key);
    NextInStream(d, e);
    NextTargeted(aggs, key, d, e);
    HistoryFold(aggs, key, d);
    HistoryFold(aggs, key, d + [e]);
    if a.Aligned() {
      AlignedFolds(aggs, a, key.aggType, History(aggs, key, d), e, slot);
    } else {
      if Targeted(aggs, key, d) != [] { NewestTargeted(aggs, d, e, key); }
      FanInFolds(aggs, a, key.aggType, History(aggs, key, d), e, slot);
    }
  }

  /** The event just folded, seen again: the same pair from the `:prev` slot. */
  lemma SkipsLatest(aggs: Aggregators, d: Log, e: Event, key: Key, slot: Slot)
    requires Sane(aggs, d + [e]) && Sane(aggs, d) && Targets(aggs, key, e) && KeyOk(aggs, d + [e], key, slot)
    ensures var a := Matching(aggs, key.aggType, e.kind).value;
            && Registered(aggs, key.aggType)
            && ApplySlot(a, slot, e) == (slot, Skipped(KeyFold(aggs, key, d), KeyFold(aggs, key, d + [e])))
  {
    var a := Matching(aggs, key.aggType, e.kind).value;
    assert (d + [e])[|d|] == e;
    TargetedAggregator(aggs, d + [e], e, key);
    NextInStream(d, e);
    NextTargeted(aggs, key, d, e);
    HistoryFold(aggs, key, d);
    HistoryFold(aggs, key, d + [e]);
    if a.Aligned() {
      AlignedSkips(aggs, a, key.aggType, History(aggs, key, d), e, slot);
    } else {
      FanInSkips(aggs, a, key.aggType, History(aggs, key, d), e, slot);
    }
  }

  /** An event that does not target the key leaves its slot right. */
  lemma ForeignKeeps(aggs: Aggregators, d: Log, e: Event, key: Key, slot: Slot)
    requires Sane(aggs, d + [e]) && !Targets(aggs, key, e) && KeyOk(aggs, d, key, slot)
    ensures KeyOk(aggs, d + [e], key, slot)
  {
    NextInStream(d, e);
    NextTargeted(aggs, key, d, e);
    if AlignedType(aggs, key.aggType) && e.stream == StreamOf(aggs, key) {
      assert (d + [e])[|d|] == e;
      EventInStream(d + [e], |d|);
      TargetedByKind(aggs, d + [e], key, e);
      AlignedForeign(aggs, key.aggType, Stream(d, e.stream), e, slot);
    }
  }

  /** Seeding a vacant aligned slot with the empty base. */
  lemma SeedKeeps(aggs: Aggregators, d: Log, key: Key, slot: Slot)
    requires AlignedType(aggs, key.aggType) && slot.entry.None? && KeyOk(aggs, d, key, slot)
    ensures KeyOk(aggs, d, key, InstallSlot(slot, Initial(aggs, key.aggType), 0, 0))
  {
  }

  /** The identity fold of the stream event at the watermark. */
  lemma AdvanceKeeps(aggs: Aggregators, d: Log, key: Key, slot: Slot, position: nat)
    requires AlignedType(aggs, key.aggType) && slot.entry.Some? && KeyOk(aggs, d, key, slot)
    requires slot.Version() < |Stream(d, StreamOf(aggs, key))|
    ensures KeyOk(aggs, d, key, AdvanceSlot(slot, slot.Version(), position))
  {
    PrefixFoldStep(aggs, key.aggType, Stream(d, StreamOf(aggs, key)), slot.Version());
  }

  // ── A round in progress ───────────────────────────────────────────

  /** While `e` is being delivered on top of `d`, every key is either still at
      `d` or already past `e`. */
  ghost predicate Between(aggs: Aggregators, d: Log, e: Event, reg: Reg) {
    forall key :: KeyOk(aggs, d, key, At(reg, key)) || KeyOk(aggs, d + [e], key, At(reg, key))
  }

  lemma SameSlotsSameReg(a: Reg, b: Reg)
    requires forall key :: At(a, key) == At(b, key)
    ensures a == b
  {
    assert forall key :: key in a.entries <==> At(a, key).entry.Some?;
    assert forall key :: key in b.entries <==> At(b, key).entry.Some?;
    assert forall key :: (key in a.prevs <==> At(a, key).prev.Some?) && (key in b.prevs <==> At(b, key).prev.Some?);
    assert forall key | key in a.entries ::
        At(a, key).entry.value == a.entries[key] && At(b, key).entry.value == b.entries[key];
    assert forall key | key in a.prevs ::
        At(a, key).prev.value == a.prevs[key] && At(b, key).prev.value == b.prevs[key];
    assert a.entries == b.entries;
    assert a.prevs == b.prevs;
  }

  lemma ReplayAtKey(aggs: Aggregators, d: Log, e: Event, reg: Reg, i: nat, key: Key)
    requires Sane(aggs, d + [e]) && Sane(aggs, d) && i < |d| && Between(aggs, d, e, reg)
    requires ApplyEvent(aggs, reg, d[i]).ok
    ensures var r := ApplyEvent(aggs, reg, d[i]);
            At(r.reg, key) == At(reg, key) && forall g | g in r.out.gaps :: g.Key() != key
  {
    ApplyEventAt(aggs, reg, d[i], key);
    assert (d + [e])[i] == d[i];
    if Targets(aggs, key, d[i]) {
      if KeyOk(aggs, d, key, At(reg, key)) {
        SkipsDelivered(aggs, d, key, At(reg, key), i);
      } else {
        SkipsDelivered(aggs, d + [e], key, At(reg, key), i);
      }
    }
  }

  /** Replaying an event already delivered changes nothing and gaps nowhere,
      for every aggregator at once. */
  lemma ReplayOfDelivered(aggs: Aggregators, d: Log, e: Event, reg: Reg, i: nat)
    requires Sane(aggs, d + [e]) && Sane(aggs, d) && i < |d| && Between(aggs, d, e, reg)
    ensures var r := ApplyEvent(aggs, reg, d[i]);
            r.ok && r.reg == reg && r.out.gaps == []
  {
    EventInStream(d, i);
    CommittedAligned(aggs, d, d[i]);
    AlignedEventsPass(aggs, |aggs|, reg, d[i]);
    var r := ApplyEvent(aggs, reg, d[i]);
    if r.out.gaps != [] {
      var g := r.out.gaps[0];
      assert g in r.out.gaps;
      ReplayAtKey(aggs, d, e, reg, i, g.Key());
      assert false;
    }
    forall key ensures At(r.reg, key) == At(reg, key) {
      ReplayAtKey(aggs, d, e, reg, i, key);
    }
    SameSlotsSameReg(r.reg, reg);
  }

  /** Only `key` changed, and it ended at the delivered prefix with its
      watermark at `e`. */
  ghost predicate OnlyRepaired(aggs: Aggregators, d: Log, e: Event, key: Key, reg: Reg, reg': Reg) {
    && (forall k | k != key :: At(reg', k) == At(reg, k))
    && KeyOk(aggs, d, key, At(reg', key))
    && At(reg', key).Version() == e.revision
  }

  lemma SplitAt(aggs: Aggregators, log: Log, n: nat)
    requires Sane(aggs, log) && n < |log|
    ensures log[..n] + [log[n]] == log[..n + 1]
    ensures Sane(aggs, log[..n]) && Sane(aggs, log[..n] + [log[n]])
    ensures log[n].revision == |Stream(log[..n], log[n].stream)|
  {
    assert log[..n] + [log[n]] == log[..n + 1] && DenseAt(log, n);
    WellFormedPrefix(log, n);
    WellFormedPrefix(log, n + 1);
  }

  lemma PutBetween(aggs: Aggregators, d: Log, e: Event, reg: Reg, key: Key, slot: Slot)
    requires Between(aggs, d, e, reg) && KeyOk(aggs, d, key, slot)
    requires slot.entry.Some? && slot.prev == At(reg, key).prev
    ensures Between(aggs, d, e, Put(reg, key, slot))
    ensures At(Put(reg, key, slot), key) == slot
    ensures forall k | k != key :: At(Put(reg, key, slot), k) == At(reg, k)
  {
    var reg' := Put(reg, key, slot);
    assert At(reg', key) == slot;
    forall k | k != key ensures At(reg', k) == At(reg, k) {
    }
    forall k ensures KeyOk(aggs, d, k, At(reg', k)) || KeyOk(aggs, d + [e], k, At(reg', k)) {
      assert k != key ==> At(reg', k) == At(reg, k);
    }
  }

  /** A stream event below the one being delivered has been delivered. */
  lemma TailEventIsDelivered(aggs: Aggregators, log: Log, n: nat, reg: Reg, first: nat)
    requires Sane(aggs, log) && n < |log| && Between(aggs, log[..n], log[n], reg)
    requires first < log[n].revision
    ensures first < |Stream(log, log[n].stream)|
    ensures var t := Stream(log, log[n].stream)[first];
            var r := ApplyEvent(aggs, reg, t);
            t.revision == first && r.ok && r.reg == reg && r.out.gaps == []
  {
    var d, s := log[..n], log[n].stream;
    SplitAt(aggs, log, n);
    StreamGrows(d, log, s);
    StreamIsDense(log, s);
    assert Stream(d, s)[first] == Stream(log, s)[first];
    var i := StreamInLog(d, s, first);
    ReplayOfDelivered(aggs, d, log[n], reg, i);
  }

  lemma WatermarkWalks(aggs: Aggregators, d: Log, key: Key, slot: Slot, first: nat, position: nat)
    requires AlignedType(aggs, key.aggType) && slot.entry.Some? && KeyOk(aggs, d, key, slot)
    requires first <= slot.Version() && first < |Stream(d, StreamOf(aggs, key))|
    ensures var slot' := AdvanceSlot(slot, first, position);
            && slot'.entry.Some? && slot'.prev == slot.prev && KeyOk(aggs, d, key, slot')
            && first < slot'.Version() <= |Stream(d, StreamOf(aggs, key))|
  {
    if slot.Version() == first {
      AdvanceKeeps(aggs, d, key, slot, position);
    }
  }

  /** One replayed tail event: only the repaired watermark moves. */
  lemma StrictTailStep(aggs: Aggregators, log: Log, n: nat, reg: Reg, key: Key, first: nat)
    requires Sane(aggs, log) && n < |log| && Between(aggs, log[..n], log[n], reg)
    requires AlignedType(aggs, key.aggType) && StreamOf(aggs, key) == log[n].stream
    requires key in reg.entries && KeyOk(aggs, log[..n], key, At(reg, key))
    requires first <= At(reg, key).Version() && first < log[n].revision
    ensures first < |Stream(log, log[n].stream)|
    ensures var t := Stream(log, log[n].stream)[first];
            var r := RepairStep(aggs, reg, key, t);
            && t.revision == first && r.ok
            && (forall k | k != key :: At(r.reg, k) == At(reg, k))
            && key in r.reg.entries && KeyOk(aggs, log[..n], key, At(r.reg, key))
            && first < At(r.reg, key).Version() <= log[n].revision
            && Between(aggs, log[..n], log[n], r.reg)
  {
    TailEventIsDelivered(aggs, log, n, reg, first);
    var t := Stream(log, log[n].stream)[first];
    SplitAt(aggs, log, n);
    var slot := At(reg, key);
    WatermarkWalks(aggs, log[..n], key, slot, first, t.position);
    var slot' := AdvanceSlot(slot, first, t.position);
    PutBetween(aggs, log[..n], log[n], reg, key, slot');
    assert RepairStep(aggs, reg, key, t).reg == Put(reg, key, slot');
  }

  /** Strict tail repair: every replayed event is one already delivered, so
      peers are left alone and the repaired watermark just walks up to `e`. */
  lemma {:induction false} StrictTail(aggs: Aggregators, log: Log, n: nat, reg: Reg, rows: Rows, key: Key, first: nat)
    requires Sane(aggs, log) && n < |log| && Between(aggs, log[..n], log[n], reg)
    requires AlignedType(aggs, key.aggType) && StreamOf(aggs, key) == log[n].stream
    requires key in reg.entries && KeyOk(aggs, log[..n], key, At(reg, key))
    requires first <= At(reg, key).Version() <= log[n].revision && first <= |Stream(log, log[n].stream)|
    ensures var r := RepairTail(aggs, reg, rows, key, Stream(log, log[n].stream)[first..], Some(log[n].revision));
            r.ok && r.rows == rows && OnlyRepaired(aggs, log[..n], log[n], key, reg, r.reg)
    decreases log[n].revision + 1 - first
  {
    var h, upto := Stream(log, log[n].stream), Some(log[n].revision);
    var tail := h[first..];
    EventInStream(log, n);
    if first == log[n].revision {
      assert tail[0] == log[n];
      assert RepairTail(aggs, reg, rows, key, tail, upto) == Repaired(reg, rows, true);
    } else {
      StrictTailStep(aggs, log, n, reg, key, first);
      var mid := RepairStep(aggs, reg, key, h[first]).reg;
      StrictTail(aggs, log, n, mid, rows, key, first + 1);
      RepairTailNext(aggs, reg, rows, key, h, first, upto);
      var done := RepairTail(aggs, mid, rows, key, h[first + 1..], upto).reg;
      RepairsChain(aggs, log[..n], log[n], key, reg, mid, done);
    }
  }

  lemma {:induction false} RepairsChain(aggs: Aggregators, d: Log, e: Event, key: Key, reg: Reg, mid: Reg, done: Reg)
    requires (forall k | k != key :: At(mid, k) == At(reg, k)) && OnlyRepaired(aggs, d, e, key, mid, done)
    ensures OnlyRepaired(aggs, d, e, key, reg, done)
  {
  }

  lemma StrictRepair(aggs: Aggregators, log: Log, n: nat, reg: Reg, rows: Rows, gap: FoldGap)
    requires Sane(aggs, log) && n < |log| && Between(aggs, log[..n], log[n], reg)
    requires RepairableGap(aggs, log, n, reg, gap)
    ensures var r := RepairGap(aggs, log, reg, rows, gap, Some(log[n].revision));
            r.ok && r.rows == rows && OnlyRepaired(aggs, log[..n], log[n], gap.Key(), reg, r.reg)
  {
    var key := gap.Key();
    var d, e := log[..n], log[n];
    var seeded := Seeded(aggs, reg, key, Some(e.revision));
    if key !in reg.entries {
      SeedKeeps(aggs, d, key, At(reg, key));
      PutBetween(aggs, d, e, reg, key, InstallSlot(At(reg, key), Initial(aggs, key.aggType), 0, 0));
    }
    EventInStream(log, n);
    SplitAt(aggs, log, n);
    assert ReadStream(log, e.stream, AfterOf(gap.expected)) == Stream(log, e.stream)[gap.expected..];
    StrictTail(aggs, log, n, seeded, rows, key, gap.expected);
  }

  lemma StillRepairable(aggs: Aggregators, log: Log, n: nat, reg: Reg, reg': Reg, done: FoldGap, g: FoldGap)
    requires n < |log| && WellFormed(log)
    requires RepairableGap(aggs, log, n, reg, done) && RepairableGap(aggs, log, n, reg, g)
    requires OnlyRepaired(aggs, log[..n], log[n], done.Key(), reg, reg')
    ensures RepairableGap(aggs, log, n, reg', g)
  {
    if g.Key() == done.Key() {
      assert DenseAt(log, n);
    }
  }

  lemma RepairedStaysBetween(aggs: Aggregators, d: Log, e: Event, key: Key, reg: Reg, reg': Reg)
    requires Between(aggs, d, e, reg) && OnlyRepaired(aggs, d, e, key, reg, reg')
    ensures Between(aggs, d, e, reg')
  {
  }

  /** After the repairs of a round: gapped keys at `d` with their watermark at
      `e`, every other key where the round left it. */
  lemma {:induction false} StrictRepairs(aggs: Aggregators, log: Log, n: nat, reg: Reg, rows: Rows, gaps: seq<FoldGap>)
    requires Sane(aggs, log) && n < |log| && Between(aggs, log[..n], log[n], reg)
    requires forall g | g in gaps :: RepairableGap(aggs, log, n, reg, g)
    ensures var r := RepairGaps(aggs, log, reg, rows, gaps, Some(log[n].revision));
            && r.ok && r.rows == rows
            && (forall g | g in gaps :: KeyOk(aggs, log[..n], g.Key(), At(r.reg, g.Key()))
                                     && At(r.reg, g.Key()).Version() == log[n].revision)
            && (forall k | (forall g | g in gaps :: g.Key() != k) :: At(r.reg, k) == At(reg, k))
    decreases |gaps|
  {
    if gaps != [] {
      assert RepairableGap(aggs, log, n, reg, gaps[0]);
      StrictRepair(aggs, log, n, reg, rows, gaps[0]);
      var r1 := RepairGap(aggs, log, reg, rows, gaps[0], Some(log[n].revision));
      forall g | g in gaps[1..] ensures RepairableGap(aggs, log, n, r1.reg, g) {
        StillRepairable(aggs, log, n, reg, r1.reg, gaps[0], g);
      }
      RepairedStaysBetween(aggs, log[..n], log[n], gaps[0].Key(), reg, r1.reg);
      StrictRepairs(aggs, log, n, r1.reg, rows, gaps[1..]);
      if forall g | g in gaps[1..] :: g.Key() != gaps[0].Key() {
      } else {
        var g :| g in gaps[1..] && g.Key() == gaps[0].Key();
      }
    }
  }

  ghost predicate RepairableGap(aggs: Aggregators, log: Log, n: nat, reg: Reg, gap: FoldGap)
    requires n < |log|
  {
    && AlignedType(aggs, gap.aggType)
    && StreamOf(aggs, gap.Key()) == StreamId(gap.subject, gap.id) == log[n].stream
    && KeyOk(aggs, log[..n], gap.Key(), At(reg, gap.Key()))
    && gap.expected <= At(reg, gap.Key()).Version()
  }

  // ── Delivering the next event ─────────────────────────────────────

  ghost predicate ExactPair(aggs: Aggregators, d: Log, e: Event, key: Key, out: Outcome) {
    Registered(aggs, key.aggType) && key in out.pairs
    && out.pairs[key] == (KeyFold(aggs, key, d), KeyFold(aggs, key, d + [e]))
  }

  /** Every key the event reaches can fold it now or has just folded it. */
  ghost predicate Ready(aggs: Aggregators, d: Log, e: Event, reg: Reg) {
    forall key ::
      if Targets(aggs, key, e) then
        KeyOk(aggs, d + [e], key, At(reg, key))
        || (KeyOk(aggs, d, key, At(reg, key))
            && (AlignedType(aggs, key.aggType) ==> At(reg, key).Version() == e.revision))
      else KeyOk(aggs, d, key, At(reg, key))
  }

  lemma ReadyAtKey(aggs: Aggregators, d: Log, e: Event, reg: Reg, key: Key)
    requires Sane(aggs, d) && Sane(aggs, d + [e]) && Ready(aggs, d, e, reg) && ApplyEvent(aggs, reg, e).ok
    ensures var r := ApplyEvent(aggs, reg, e);
            && KeyOk(aggs, d + [e], key, At(r.reg, key))
            && (if Targets(aggs, key, e) then ExactPair(aggs, d, e, key, r.out) else key !in r.out.pairs)
            && (forall g | g in r.out.gaps :: g.Key() != key)
  {
    ApplyEventAt(aggs, reg, e, key);
    if !Targets(aggs, key, e) {
      ForeignKeeps(aggs, d, e, key, At(reg, key));
    } else if KeyOk(aggs, d + [e], key, At(reg, key)) {
      SkipsLatest(aggs, d, e, key, At(reg, key));
    } else {
      FoldsNext(aggs, d, e, key, At(reg, key));
    }
  }

  /** A round on a ready registry folds the event everywhere, exactly. */
  lemma ReadyRound(aggs: Aggregators, d: Log, e: Event, reg: Reg)
    requires Sane(aggs, d) && Sane(aggs, d + [e]) && Ready(aggs, d, e, reg)
    ensures var r := ApplyEvent(aggs, reg, e);
            && r.ok && r.out.gaps == [] && AllOk(aggs, d + [e], r.reg)
            && (forall key :: if Targets(aggs, key, e) then ExactPair(aggs, d, e, key, r.out) else key !in r.out.pairs)
  {
    assert (d + [e])[|d|] == e;
    EventInStream(d + [e], |d|);
    CommittedAligned(aggs, d + [e], e);
    AlignedEventsPass(aggs, |aggs|, reg, e);
    var r := ApplyEvent(aggs, reg, e);
    if r.out.gaps != [] {
      var g := r.out.gaps[0];
      assert g in r.out.gaps;
      ReadyAtKey(aggs, d, e, reg, g.Key());
      assert false;
    }
    forall key
      ensures KeyOk(aggs, d + [e], key, At(r.reg, key))
      ensures if Targets(aggs, key, e) then ExactPair(aggs, d, e, key, r.out) else key !in r.out.pairs
    {
      ReadyAtKey(aggs, d, e, reg, key);
    }
  }

  /** What the first round of a first delivery does at one key: nothing, a
      gap with the slot untouched, or the fold. */
  ghost predicate FirstRoundDoes(aggs: Aggregators, d: Log, e: Event, key: Key, slot: Slot, slot': Slot,
      gaps: seq<FoldGap>) {
    if !Targets(aggs, key, e) then slot' == slot
    else if AlignedType(aggs, key.aggType) && slot.Version() != e.revision then
      slot' == slot && exists g :: g in gaps && g.Key() == key
    else KeyOk(aggs, d + [e], key, slot') && forall g | g in gaps :: g.Key() != key
  }

  lemma FirstRoundAtKey(aggs: Aggregators, d: Log, e: Event, reg: Reg, key: Key)
    requires Sane(aggs, d) && Sane(aggs, d + [e]) && AllOk(aggs, d, reg) && ApplyEvent(aggs, reg, e).ok
    ensures var r := ApplyEvent(aggs, reg, e);
            FirstRoundDoes(aggs, d, e, key, At(reg, key), At(r.reg, key), r.out.gaps)
  {
    var slot := At(reg, key);
    assert KeyOk(aggs, d, key, slot);
    if Targets(aggs, key, e) && AlignedType(aggs, key.aggType) && slot.Version() != e.revision {
      FirstRoundGaps(aggs, d, e, reg, key);
    } else {
      ApplyEventAt(aggs, reg, e, key);
      if Targets(aggs, key, e) { FoldsNext(aggs, d, e, key, slot); }
    }
  }

  lemma BehindMeansGap(aggs: Aggregators, d: Log, e: Event, key: Key, slot: Slot)
    requires Sane(aggs, d + [e]) && KeyOk(aggs, d, key, slot)
    requires Targets(aggs, key, e) && AlignedType(aggs, key.aggType) && slot.Version() != e.revision
    ensures var a := Matching(aggs, key.aggType, e.kind).value;
            ApplySlot(a, slot, e) == (slot, Gapped(slot.Version()))
  {
    assert (d + [e])[|d|] == e;
    TargetedAggregator(aggs, d + [e], e, key);
    NextInStream(d, e);
  }

  lemma FirstRoundGaps(aggs: Aggregators, d: Log, e: Event, reg: Reg, key: Key)
    requires Sane(aggs, d + [e]) && KeyOk(aggs, d, key, At(reg, key)) && ApplyEvent(aggs, reg, e).ok
    requires Targets(aggs, key, e) && AlignedType(aggs, key.aggType) && At(reg, key).Version() != e.revision
    ensures var r := ApplyEvent(aggs, reg, e);
            At(r.reg, key) == At(reg, key) && exists g :: g in r.out.gaps && g.Key() == key
  {
    BehindMeansGap(aggs, d, e, key, At(reg, key));
    ApplyEventAt(aggs, reg, e, key);
    var a := Matching(aggs, key.aggType, e.kind).value;
    var g := FoldGap(key.aggType, a.subject, key.id, At(reg, key).Version());
    assert g in ApplyEvent(aggs, reg, e).out.gaps && g.Key() == key;
  }

  /** What the first round leaves for the repairs. */
  lemma FirstRound(aggs: Aggregators, log: Log, n: nat, reg: Reg)
    requires Sane(aggs, log) && n < |log| && AllOk(aggs, log[..n], reg)
    ensures var r := ApplyEvent(aggs, reg, log[n]);
            && r.ok && Between(aggs, log[..n], log[n], r.reg)
            && forall g | g in r.out.gaps :: RepairableGap(aggs, log, n, r.reg, g)
  {
    var d, e := log[..n], log[n];
    SplitAt(aggs, log, n);
    EventInStream(log, n);
    CommittedAligned(aggs, log, e);
    AlignedEventsPass(aggs, |aggs|, reg, e);
    var r := ApplyEvent(aggs, reg, e);
    forall key ensures KeyOk(aggs, d, key, At(r.reg, key)) || KeyOk(aggs, d + [e], key, At(r.reg, key)) {
      assert KeyOk(aggs, d, key, At(reg, key));
      FirstRoundAtKey(aggs, d, e, reg, key);
    }
    forall g | g in r.out.gaps ensures RepairableGap(aggs, log, n, r.reg, g) {
      GapsAreReal(aggs, |aggs|, reg, e, g);
      assert KeyOk(aggs, d, g.Key(), At(reg, g.Key()));
      FirstRoundAtKey(aggs, d, e, reg, g.Key());
    }
  }

  lemma RepairsMakeReady(aggs: Aggregators, log: Log, n: nat, reg: Reg, rows: Rows)
    requires Sane(aggs, log) && n < |log| && AllOk(aggs, log[..n], reg)
    ensures var r := ApplyEvent(aggs, reg, log[n]);
            var f := RepairGaps(aggs, log, r.reg, rows, r.out.gaps, Some(log[n].revision));
            && r.ok && f.ok && f.rows == rows && Ready(aggs, log[..n], log[n], f.reg)
            && (r.out.gaps == [] ==> Ready(aggs, log[..n], log[n], reg))
  {
    var d, e := log[..n], log[n];
    FirstRound(aggs, log, n, reg);
    SplitAt(aggs, log, n);
    var r := ApplyEvent(aggs, reg, e);
    StrictRepairs(aggs, log, n, r.reg, rows, r.out.gaps);
    var f := RepairGaps(aggs, log, r.reg, rows, r.out.gaps, Some(e.revision));
    forall key ensures
      if Targets(aggs, key, e) then
        KeyOk(aggs, d + [e], key, At(f.reg, key))
        || (KeyOk(aggs, d, key, At(f.reg, key))
            && (AlignedType(aggs, key.aggType) ==> At(f.reg, key).Version() == e.revision))
      else KeyOk(aggs, d, key, At(f.reg, key))
    {
      assert KeyOk(aggs, d, key, At(reg, key));
      FirstRoundAtKey(aggs, d, e, reg, key);
      if g :| g in r.out.gaps && g.Key() == key {
      }
    }
    if r.out.gaps == [] {
      forall key ensures
        if Targets(aggs, key, e) then
          KeyOk(aggs, d + [e], key, At(reg, key))
          || (KeyOk(aggs, d, key, At(reg, key))
              && (AlignedType(aggs, key.aggType) ==> At(reg, key).Version() == e.revision))
        else KeyOk(aggs, d, key, At(reg, key))
      {
        assert KeyOk(aggs, d, key, At(reg, key));
        FirstRoundAtKey(aggs, d, e, reg, key);
      }
    }
  }

  /** First delivery of event `n` on top of its predecessors. The fold
      converges, every key becomes the fold of one event more, and the
      transition reported for each matching aggregate is exactly (fold before
      the event, fold through it) — also for aggregates that folded in the
      first round and were only skipped in the round that returned. */
  lemma DeliverNext(aggs: Aggregators, rounds: nat, log: Log, n: nat, reg: Reg, rows: Rows)
    requires 2 <= rounds && Sane(aggs, log) && n < |log| && AllOk(aggs, log[..n], reg)
    ensures var f := FoldEvent(aggs, log, reg, rows, log[n], true, rounds);
            && f.FoldOk? && f.rows == rows && AllOk(aggs, log[..n + 1], f.reg)
            && (forall key :: if Targets(aggs, key, log[n]) then ExactPair(aggs, log[..n], log[n], key, f.out)
                              else key !in f.out.pairs)
  {
    SplitAt(aggs, log, n);
    RepairsMakeReady(aggs, log, n, reg, rows);
    var r := ApplyEvent(aggs, reg, log[n]);
    if r.out.gaps == [] {
      ReadyRound(aggs, log[..n], log[n], reg);
    } else {
      var f := RepairGaps(aggs, log, r.reg, rows, r.out.gaps, Some(log[n].revision));
      ReadyRound(aggs, log[..n], log[n], f.reg);
      assert FoldEvent(aggs, log, f.reg, rows, log[n], true, rounds - 1).FoldOk?;
    }
  }

  // ── Redelivering an old event ─────────────────────────────────────

  /** The skipped event is where the entry's watermark stands. */
  predicate AtWatermark(aggs: Aggregators, slot: Slot, key: Key, e: Event) {
    slot.entry.Some? && slot.entry.value.version == e.revision + 1
    && (AlignedType(aggs, key.aggType) || slot.entry.value.lastPos == e.position)
  }

  /** A slot whose watermark stands at the delivered event `d[i]` keeps the
      state from before it in its `:prev` slot. */
  lemma WatermarkPair(aggs: Aggregators, d: Log, i: nat, key: Key, slot: Slot)
    requires Sane(aggs, d) && i < |d| && Targets(aggs, key, d[i]) && KeyOk(aggs, d, key, slot)
    requires AtWatermark(aggs, slot, key, d[i]) && Registered(aggs, key.aggType)
    ensures slot.prev == Some(KeyFold(aggs, key, d[..i]))
  {
    WellFormedPrefix(d, i);
    HistoryFold(aggs, key, d[..i]);
    if AlignedType(aggs, key.aggType) {
      TargetedAggregator(aggs, d, d[i], key);
      EventInStream(d, i);
      StreamGrows(d[..i], d, d[i].stream);
      assert DenseAt(d, i);
      assert Stream(d, d[i].stream)[..d[i].revision] == Stream(d[..i], d[i].stream);
    } else {
      WatermarkIsLast(aggs, d, i, key, slot);
    }
  }

  lemma WatermarkIsLast(aggs: Aggregators, d: Log, i: nat, key: Key, slot: Slot)
    requires Sane(aggs, d) && i < |d| && Targets(aggs, key, d[i]) && Registered(aggs, key.aggType)
    requires FanInOk(aggs, key.aggType, Targeted(aggs, key, d), slot)
    requires slot.entry.Some?
    requires slot.entry.value.version == d[i].revision + 1 && slot.entry.value.lastPos == d[i].position
    ensures slot.prev == Some(PrefixFold(aggs, key.aggType, Targeted(aggs, key, d[..i])))
  {
    var j := DeliveredIsTargeted(aggs, key, d, i);
    var last := LastTargeted(aggs, key, d);
    if i < last { LogOrder(d, i, last); }
  }

  lemma RedeliverAtKey(aggs: Aggregators, d: Log, reg: Reg, i: nat, key: Key)
    requires Sane(aggs, d) && i < |d| && AllOk(aggs, d, reg)
    requires Targets(aggs, key, d[i]) && ApplyEvent(aggs, reg, d[i]).ok
    ensures var r := ApplyEvent(aggs, reg, d[i]);
            && Registered(aggs, key.aggType) && key in r.out.pairs
            && r.out.pairs[key].1 == KeyFold(aggs, key, d)
            && r.out.pairs[key].0 == if AtWatermark(aggs, At(reg, key), key, d[i]) then KeyFold(aggs, key, d[..i])
                                     else KeyFold(aggs, key, d)
  {
    var slot := At(reg, key);
    assert KeyOk(aggs, d, key, slot);
    ApplyEventAt(aggs, reg, d[i], key);
    SkipsDelivered(aggs, d, key, slot, i);
    TargetedAggregator(aggs, d, d[i], key);
    KeyOkMeansFold(aggs, d, key, reg);
    if AtWatermark(aggs, slot, key, d[i]) { WatermarkPair(aggs, d, i, key, slot); }
  }

  /** Redelivery of anything already delivered leaves the whole registry
      unchanged. The pair reported is the event's own transition exactly while
      the watermark still stands at it, and (current, current) afterwards. */
  lemma DeliverAgain(aggs: Aggregators, rounds: nat, log: Log, n: nat, reg: Reg, rows: Rows, i: nat)
    requires 1 <= rounds && Sane(aggs, log) && i < n <= |log| && AllOk(aggs, log[..n], reg)
    ensures var f := FoldEvent(aggs, log, reg, rows, log[i], true, rounds);
            && f.FoldOk? && f.reg == reg && f.rows == rows
            && (forall key | Targets(aggs, key, log[i]) ::
                  && Registered(aggs, key.aggType) && key in f.out.pairs
                  && f.out.pairs[key].1 == KeyFold(aggs, key, log[..n])
                  && f.out.pairs[key].0 == KeyFold(aggs, key,
                       if AtWatermark(aggs, At(reg, key), key, log[i]) then log[..i] else log[..n]))
  {
    var d := log[..n];
    WellFormedPrefix(log, n);
    assert d[i] == log[i] && d[..i] == log[..i];
    ReplayOfLog(aggs, d, reg, i);
    forall key | Targets(aggs, key, log[i])
      ensures var out := ApplyEvent(aggs, reg, log[i]).out;
              && Registered(aggs, key.aggType) && key in out.pairs
              && out.pairs[key].1 == KeyFold(aggs, key, log[..n])
              && out.pairs[key].0 == KeyFold(aggs, key,
                   if AtWatermark(aggs, At(reg, key), key, log[i]) then log[..i] else log[..n])
    {
      RedeliverAtKey(aggs, d, reg, i, key);
    }
  }

  lemma ReplayOfLog(aggs: Aggregators, d: Log, reg: Reg, i: nat)
    requires Sane(aggs, d) && i < |d| && AllOk(aggs, d, reg)
    ensures var r := ApplyEvent(aggs, reg, d[i]);
            r.ok && r.reg == reg && r.out.gaps == []
  {
    EventInStream(d, i);
    CommittedAligned(aggs, d, d[i]);
    AlignedEventsPass(aggs, |aggs|, reg, d[i]);
    var r := ApplyEvent(aggs, reg, d[i]);
    if r.out.gaps != [] {
      var g := r.out.gaps[0];
      assert g in r.out.gaps;
      ReplayOfLogAtKey(aggs, d, reg, i, g.Key());
      assert false;
    }
    forall key ensures At(r.reg, key) == At(reg, key) {
      ReplayOfLogAtKey(aggs, d, reg, i, key);
    }
    SameSlotsSameReg(r.reg, reg);
  }

  lemma ReplayOfLogAtKey(aggs: Aggregators, d: Log, reg: Reg, i: nat, key: Key)
    requires Sane(aggs, d) && i < |d| && AllOk(aggs, d, reg) && ApplyEvent(aggs, reg, d[i]).ok
    ensures var r := ApplyEvent(aggs, reg, d[i]);
            At(r.reg, key) == At(reg, key) && forall g | g in r.out.gaps :: g.Key() != key
  {
    ApplyEventAt(aggs, reg, d[i], key);
    assert KeyOk(aggs, d, key, At(reg, key));
    if Targets(aggs, key, d[i]) {
      SkipsDelivered(aggs, d, key, At(reg, key), i);
    }
  }

  // ── Whole runs ────────────────────────────────────────────────────

  /** One delivery: the log as it stands, and the index delivered. */
  datatype Delivery = Delivery(log: Log, at: nat)

  datatype Progress = Progress(reg: Reg, done: nat, failed: bool)

  /** The registry after a run, and how much of the log has been delivered. */
  function Run(aggs: Aggregators, rounds: nat, run: seq<Delivery>): Progress {
    if run == [] then Progress(EMPTY_REG, 0, false)
    else
      var p := Run(aggs, rounds, run[..|run| - 1]);
      var x := run[|run| - 1];
      if x.at >= |x.log| then p.(failed := true) else
      var f := FoldEvent(aggs, x.log, p.reg, None, x.log[x.at], true, rounds);
      Progress(f.reg, if x.at == p.done then p.done + 1 else p.done, p.failed || f.FoldErr?)
  }

  /** Deliveries over one growing log, in order but at least once: each is the
      next event or any event already delivered. */
  ghost predicate InOrder(aggs: Aggregators, rounds: nat, run: seq<Delivery>) {
    run == []
    || (var front, x := run[..|run| - 1], run[|run| - 1];
        && InOrder(aggs, rounds, front)
        && Sane(aggs, x.log) && x.at < |x.log|
        && (front != [] ==> front[|front| - 1].log <= x.log)
        && x.at <= Run(aggs, rounds, front).done)
  }

  lemma EmptyIsOk(aggs: Aggregators)
    ensures AllOk(aggs, [], EMPTY_REG)
  {
  }

  /** One delivery on top of a delivered prefix. */
  lemma StrictStep(aggs: Aggregators, rounds: nat, x: Delivery, done: nat, reg: Reg)
    requires 2 <= rounds && Sane(aggs, x.log) && x.at < |x.log|
    requires x.at <= done <= |x.log| && AllOk(aggs, x.log[..done], reg)
    ensures var f := FoldEvent(aggs, x.log, reg, None, x.log[x.at], true, rounds);
            f.FoldOk? && AllOk(aggs, x.log[..if x.at == done then done + 1 else done], f.reg)
  {
    if x.at == done {
      DeliverNext(aggs, rounds, x.log, x.at, reg, None);
    } else {
      DeliverAgain(aggs, rounds, x.log, done, reg, None, x.at);
    }
  }

  lemma {:induction false} RunKeepsInvariant(aggs: Aggregators, rounds: nat, run: seq<Delivery>)
    requires 2 <= rounds && InOrder(aggs, rounds, run) && run != []
    ensures var p, log := Run(aggs, rounds, run), run[|run| - 1].log;
            !p.failed && p.done <= |log| && AllOk(aggs, log[..p.done], p.reg)
  {
    var front, x := run[..|run| - 1], run[|run| - 1];
    var p := Run(aggs, rounds, front);
    if front == [] {
      EmptyIsOk(aggs);
      assert x.log[..0] == [];
    } else {
      RunKeepsInvariant(aggs, rounds, front);
      assert front[|front| - 1].log[..p.done] == x.log[..p.done];
    }
    StrictStep(aggs, rounds, x, p.done, p.reg);
  }

  /** The consumer promise `state == fold(log[..cursor])`, for all aggregates
      at once and along the whole run: no delivery fails, every key reads the
      fold of exactly the delivered prefix, and no aligned watermark lies
      beyond it, so nothing undelivered was folded. */
  lemma {:induction false} StrictPromise(aggs: Aggregators, rounds: nat, run: seq<Delivery>)
    requires 2 <= rounds && InOrder(aggs, rounds, run) && run != []
    ensures var p, log := Run(aggs, rounds, run), run[|run| - 1].log;
            && !p.failed && p.done <= |log| && AllOk(aggs, log[..p.done], p.reg)
            && (forall key: Key | Registered(aggs, key.aggType) ::
                  StateIn(aggs, p.reg, key) == KeyFold(aggs, key, log[..p.done]))
            && (forall key: Key | AlignedType(aggs, key.aggType) ::
                  At(p.reg, key).Version() <= |Stream(log[..p.done], StreamOf(aggs, key))|)
  {
    RunKeepsInvariant(aggs, rounds, run);
    var q, log := Run(aggs, rounds, run), run[|run| - 1].log;
    WellFormedPrefix(log, q.done);
    forall key: Key | Registered(aggs, key.aggType)
      ensures StateIn(aggs, q.reg, key) == KeyFold(aggs, key, log[..q.done])
      ensures AlignedType(aggs, key.aggType) ==>
                At(q.reg, key).Version() <= |Stream(log[..q.done], StreamOf(aggs, key))|
    {
      assert KeyOk(aggs, log[..q.done], key, At(q.reg, key));
      KeyOkMeansFold(aggs, log[..q.done], key, q.reg);
    }
  }
}
