/** The registry under concurrency: any number of folds (live or strict),
    their gap repairs, read-through restores and snapshot saves, interleaved at
    the program's atomic steps over a log that keeps growing and a snapshot
    store.

    Atomic steps: one aggregator's gated read-modify-write of one key, one
    `has_state`, one monotonic install, one watermark advance, one stream read,
    one snapshot load or delete, and of a save each of its reads of an entry,
    its write and its mark.

    Versions, convergence and repairs are proved of every run. States are
    prefix folds for as long as no save was torn: `sound` says so. */
module RegistryMachine {
  import opened JsonValue
  import opened EventLog
  import opened Folding
  import opened Counting
  import opened RegistrySpec
  import opened RepairSpec

  /** Where a task stands. `gaps` are the repairs its round still owes, the
      head being the one in progress; a reader owes one pseudo-gap. */
  datatype Phase =
    | Applying(next: nat, gaps: seq<FoldGap>)
    | NextGap(gaps: seq<FoldGap>)
    | RestoreCheck(gaps: seq<FoldGap>)
    | RestoreLoad(gaps: seq<FoldGap>)
    | RestoreHeal(gaps: seq<FoldGap>, snapshotAt: nat)
    | RestoreRead(gaps: seq<FoldGap>, seed: Seed, snapshotAt: nat)
    | RestoreInstall(gaps: seq<FoldGap>, state: State, version: nat, snapshotAt: nat)
    | SeedBase(gaps: seq<FoldGap>)
    | ReadTail(gaps: seq<FoldGap>)
    | Tail(gaps: seq<FoldGap>, tail: seq<Event>, i: nat)
    | Replaying(gaps: seq<FoldGap>, tail: seq<Event>, i: nat, next: nat, selfGapped: bool)
    | Finished(ok: bool)

  /** `Folder` is one `fold_event` call, `Reader` one read-through restore. */
  datatype Task =
    | Folder(e: Event, strict: bool, rounds: nat, phase: Phase)
    | Reader(phase: Phase)

  /** Where the save of one key stands. `seen`, which the code does not keep,
      is the version the state had when it was read. */
  datatype SavePhase =
    | SaveBegun
    | VersionRead(version: nat)
    | SaveDue(version: nat)
    | StateRead(version: nat, state: State, seen: nat)
    | RowWritten(version: nat)
    | SaveEnded

  /** One key's turn in `maybe_save_snapshots`. */
  datatype Save = Save(key: Key, phase: SavePhase)

  datatype World = World(log: Log, reg: Reg, rows: Rows, tasks: seq<Task>, saves: seq<Save>)

  // ── One task's next step ──────────────────────────────────────────

  datatype StepOutcome = StepOutcome(reg: Reg, rows: Rows, phase: Phase)

  function Upto(t: Task): Option<nat> {
    if t.Folder? && t.strict then Some(t.e.revision) else None
  }

  /** A restore that found nothing: a fold goes on to read its tail. */
  function NotRestored(t: Task, gaps: seq<FoldGap>): Phase {
    if t.Folder? then ReadTail(gaps) else Finished(true)
  }

  /** How the repair of the first gap starts, if a gap is left. */
  function RepairPhase(reg: Reg, t: Task, gaps: seq<FoldGap>): Phase {
    if gaps == [] then (if t.Folder? then Applying(0, []) else Finished(true))
    else if Upto(t).None? && gaps[0].Key() !in reg.entries then RestoreCheck(gaps)
    else if Upto(t).Some? && gaps[0].Key() !in reg.entries then SeedBase(gaps)
    else if t.Reader? then Finished(true)
    else ReadTail(gaps)
  }

  function RestoredVersion(seed: Seed, tail: seq<Event>): nat {
    (if tail != [] then tail[|tail| - 1].revision else if seed.after.Some? then seed.after.value else 0) + 1
  }

  /** What a restore makes of the stream it read. */
  function RestorePhase(aggs: Aggregators, t: Task, gaps: seq<FoldGap>, seed: Seed, snapshotAt: nat,
      tail: seq<Event>): Phase
    requires gaps != []
  {
    if tail == [] && seed.after.None? then NotRestored(t, gaps)
    else
      RestoreInstall(gaps, ReplayOnto(aggs, gaps[0].aggType, seed.state, tail), RestoredVersion(seed, tail), snapshotAt)
  }

  /** The step of a fold's or reader's current phase. */
  function PhaseStep(aggs: Aggregators, log: Log, reg: Reg, rows: Rows, t: Task): StepOutcome {
    match t.phase
    case Finished(ok) => StepOutcome(reg, rows, t.phase)
    case Applying(next, gaps) =>
      if t.Reader? then StepOutcome(reg, rows, Finished(false))
      else if next >= |aggs| then StepOutcome(reg, rows, if gaps == [] then Finished(true) else NextGap(gaps))
      else
        var r := ApplyNext(aggs[next], Applied(reg, NO_OUTCOME, true), t.e);
        StepOutcome(r.reg, rows, if r.ok then Applying(next + 1, gaps + r.out.gaps) else Finished(false))
    case NextGap(gaps) => StepOutcome(reg, rows, RepairPhase(reg, t, gaps))
    case RestoreCheck(gaps) =>
      if gaps == [] then StepOutcome(reg, rows, Finished(false))
      else if gaps[0].subject == "" then StepOutcome(reg, rows, NotRestored(t, gaps))
      else if gaps[0].Key() in reg.entries then StepOutcome(reg, rows, NextGap(gaps[1..]))
      else if !Registered(aggs, gaps[0].aggType) then StepOutcome(reg, rows, NotRestored(t, gaps))
      else StepOutcome(reg, rows, RestoreLoad(gaps))
    case RestoreLoad(gaps) =>
      if gaps == [] || !Registered(aggs, gaps[0].aggType) then StepOutcome(reg, rows, Finished(false))
      else
        var snap := LoadRow(rows, gaps[0].Key());
        var snapshotAt := if snap.Some? then snap.value.revision + 1 else 0;
        StepOutcome(reg, rows,
          if snap.Some? && snap.value.blob.None? then RestoreHeal(gaps, snapshotAt)
          else RestoreRead(gaps, SeedOf(Initial(aggs, gaps[0].aggType), snap), snapshotAt))
    case RestoreHeal(gaps, snapshotAt) =>
      if gaps == [] || !Registered(aggs, gaps[0].aggType) then StepOutcome(reg, rows, Finished(false))
      else
        var rows' := if rows.Some? then Some(rows.value - {gaps[0].Key()}) else rows;
        StepOutcome(reg, rows', RestoreRead(gaps, Seed(Initial(aggs, gaps[0].aggType), None), snapshotAt))
    case RestoreRead(gaps, seed, snapshotAt) =>
      if gaps == [] then StepOutcome(reg, rows, Finished(false))
      else
        var tail := ReadStream(log, StreamId(gaps[0].subject, gaps[0].id), seed.after);
        StepOutcome(reg, rows, RestorePhase(aggs, t, gaps, seed, snapshotAt, tail))
    case RestoreInstall(gaps, state, version, snapshotAt) =>
      if gaps == [] then StepOutcome(reg, rows, Finished(false))
      else
        var key := gaps[0].Key();
        StepOutcome(Put(reg, key, InstallSlot(At(reg, key), state, version, snapshotAt)), rows, NextGap(gaps[1..]))
    case SeedBase(gaps) =>
      if gaps == [] || !Registered(aggs, gaps[0].aggType) then StepOutcome(reg, rows, Finished(false))
      else
        var key := gaps[0].Key();
        StepOutcome(Put(reg, key, InstallSlot(At(reg, key), Initial(aggs, key.aggType), 0, 0)), rows, ReadTail(gaps))
    case ReadTail(gaps) =>
      if gaps == [] then StepOutcome(reg, rows, Finished(false))
      else
        var tail := ReadStream(log, StreamId(gaps[0].subject, gaps[0].id), AfterOf(gaps[0].expected));
        StepOutcome(reg, rows, Tail(gaps, tail, 0))
    case Tail(gaps, tail, i) =>
      if gaps == [] then StepOutcome(reg, rows, NextGap([]))
      else if i >= |tail| || Past(Upto(t), tail[i]) then StepOutcome(reg, rows, NextGap(gaps[1..]))
      else StepOutcome(reg, rows, Replaying(gaps, tail, i, 0, false))
    case Replaying(gaps, tail, i, next, selfGapped) =>
      if gaps == [] || i >= |tail| then StepOutcome(reg, rows, Finished(false))
      else if next >= |aggs| then
        var key := gaps[0].Key();
        var slot := AdvanceSlot(At(reg, key), tail[i].revision, tail[i].position);
        StepOutcome(if selfGapped then reg else Put(reg, key, slot), rows, Tail(gaps, tail, i + 1))
      else
        var r := ApplyNext(aggs[next], Applied(reg, NO_OUTCOME, true), tail[i]);
        StepOutcome(r.reg, rows,
          if !r.ok then Finished(false)
          else Replaying(gaps, tail, i, next + 1, selfGapped || SelfGapped(r.out, gaps[0].Key())))
  }

  /** A fold whose repairs are done starts another round, if it has one left. */
  function TaskAfter(t: Task, phase: Phase): Task {
    if t.Reader? then Reader(phase)
    else if t.phase.NextGap? && phase.Applying? then
      if t.rounds <= 1 then Folder(t.e, t.strict, 0, Finished(false)) else Folder(t.e, t.strict, t.rounds - 1, phase)
    else Folder(t.e, t.strict, t.rounds, phase)
  }

  // ── One save's next step ──────────────────────────────────────────

  function SnapshotAt(reg: Reg, key: Key): nat {
    if key in reg.entries then reg.entries[key].snapshotAt else 0
  }

  /** The three reads of a save: the version, the mark of the last snapshot,
      which decides whether one is due, and the state. */
  function SaveReads(every: nat, reg: Reg, s: Save): SavePhase {
    match s.phase
    case SaveBegun => VersionRead(At(reg, s.key).Version())
    case VersionRead(v) => if v < SnapshotAt(reg, s.key) + every then SaveEnded else SaveDue(v)
    case SaveDue(v) =>
      if s.key in reg.entries then StateRead(v, reg.entries[s.key].state, reg.entries[s.key].version) else SaveEnded
    case _ => SaveEnded
  }

  /** The row of a save that has read version and state. */
  function RowOf(phase: SavePhase): Snapshot
    requires phase.StateRead?
  {
    Snapshot(if phase.version > 0 then phase.version - 1 else 0, Some(phase.state))
  }

  ghost predicate SaveMoves(every: nat, w: World, i: int, w': World) {
    && 0 <= i < |w.saves| && !w.saves[i].phase.RowWritten?
    && w' == w.(saves := w.saves[i := w.saves[i].(phase := SaveReads(every, w.reg, w.saves[i]))])
  }

  /** The store takes the row; a store that refuses it ends the save. */
  ghost predicate SaveWrites(w: World, i: int, w': World) {
    && 0 <= i < |w.saves| && w.saves[i].phase.StateRead? && w.rows.Some?
    && var s := w.saves[i];
       w' == w.(rows := Some(w.rows.value[s.key := RowOf(s.phase)]),
                saves := w.saves[i := s.(phase := RowWritten(s.phase.version))])
  }

  function Marked(reg: Reg, key: Key, version: nat): Reg {
    if key in reg.entries then reg.(entries := reg.entries[key := reg.entries[key].(snapshotAt := version)]) else reg
  }

  ghost predicate SaveMarks(w: World, i: int, w': World) {
    && 0 <= i < |w.saves| && w.saves[i].phase.RowWritten?
    && var s := w.saves[i];
       w' == w.(reg := Marked(w.reg, s.key, s.phase.version), saves := w.saves[i := s.(phase := SaveEnded)])
  }

  // ── The machine ───────────────────────────────────────────────────

  ghost predicate Next(aggs: Aggregators, every: nat, w: World, w': World) {
    || (w.log <= w'.log && Sane(aggs, w'.log) && w' == w.(log := w'.log))
    || (exists e, strict :: SpawnFold(w, e, strict, w'))
    || (exists key :: SpawnReader(aggs, w, key, w'))
    || (exists key :: SpawnSave(aggs, every, w, key, w'))
    || (exists i :: RunTask(aggs, w, i, w'))
    || (exists i :: SaveMoves(every, w, i, w'))
    || (exists i :: SaveWrites(w, i, w'))
    || (exists i :: SaveMarks(w, i, w'))
  }

  /** A fold of a committed event starts: live, or strict for a consumer. */
  ghost predicate SpawnFold(w: World, e: Event, strict: bool, w': World) {
    Committed(w.log, e) && w' == w.(tasks := w.tasks + [Folder(e, strict, MAX_ROUNDS, Applying(0, []))])
  }

  /** A read-through restore starts. */
  ghost predicate SpawnReader(aggs: Aggregators, w: World, key: Key, w': World) {
    && AlignedType(aggs, key.aggType)
    && w' == w.(tasks := w.tasks + [Reader(NextGap([FoldGap(key.aggType, StreamOf(aggs, key).category, key.id, 0)]))])
  }

  /** A save starts; only restorable aggregates are ever saved. */
  ghost predicate SpawnSave(aggs: Aggregators, every: nat, w: World, key: Key, w': World) {
    && 0 < every && w.rows.Some? && AlignedType(aggs, key.aggType)
    && w' == w.(saves := w.saves + [Save(key, SaveBegun)])
  }

  ghost predicate RunTask(aggs: Aggregators, w: World, i: int, w': World) {
    && 0 <= i < |w.tasks|
    && var o := PhaseStep(aggs, w.log, w.reg, w.rows, w.tasks[i]);
       w' == w.(reg := o.reg, rows := o.rows, tasks := w.tasks[i := TaskAfter(w.tasks[i], o.phase)])
  }

  // ── Torn saves ────────────────────────────────────────────────────

  /** The events folded between two versions of an entry. */
  function Between(h: seq<Event>, m: nat, n: nat): seq<Event> {
    if m <= n <= |h| then h[m..n] else []
  }

  /** What was folded between a save's two reads: nothing of the aggregate. */
  ghost predicate Whole(aggs: Aggregators, log: Log, s: Save)
    requires s.phase.StateRead?
  {
    AlignedType(aggs, s.key.aggType) &&
    Matches(aggs, s.key.aggType, Between(Stream(log, StreamOf(aggs, s.key)), s.phase.version, s.phase.seen)) == 0
  }

  /** A step stores a snapshot whose state is ahead of its revision. */
  ghost predicate Tears(aggs: Aggregators, w: World, w': World) {
    exists i :: SaveWrites(w, i, w') && !Whole(aggs, w.log, w.saves[i])
  }

  // ── What every task may rely on and must keep ─────────────────────

  ghost predicate SlotHolds(aggs: Aggregators, sound: bool, log: Log, key: Key, slot: Slot) {
    AlignedType(aggs, key.aggType) && slot.entry.Some? ==>
      StateOk(aggs, sound, log, key, slot.entry.value.state, slot.entry.value.version)
  }

  ghost predicate RegHolds(aggs: Aggregators, sound: bool, log: Log, reg: Reg) {
    forall key :: SlotHolds(aggs, sound, log, key, At(reg, key))
  }

  ghost predicate SnapshotHolds(aggs: Aggregators, sound: bool, log: Log, key: Key, snap: Snapshot) {
    AlignedType(aggs, key.aggType) && snap.blob.Some? ==>
      StateOk(aggs, sound, log, key, snap.blob.value, snap.revision + 1)
  }

  ghost predicate RowsHold(aggs: Aggregators, sound: bool, log: Log, rows: Rows) {
    rows.Some? ==> forall key | key in rows.value :: SnapshotHolds(aggs, sound, log, key, rows.value[key])
  }

  /** A recorded gap: a real aligned key, never recorded above its version. */
  ghost predicate GapOk(aggs: Aggregators, log: Log, reg: Reg, g: FoldGap) {
    && AlignedType(aggs, g.aggType)
    && StreamOf(aggs, g.Key()) == StreamId(g.subject, g.id)
    && g.expected <= At(reg, g.Key()).Version()
    && g.expected <= |Stream(log, StreamOf(aggs, g.Key()))|
  }

  ghost predicate GapsOk(aggs: Aggregators, log: Log, reg: Reg, gaps: seq<FoldGap>) {
    forall g | g in gaps :: GapOk(aggs, log, reg, g)
  }

  /** What a repairer knows of its tail: it is a stretch of the stream, and
      its entry exists and is never behind the next tail event. */
  ghost predicate TailOk(aggs: Aggregators, log: Log, reg: Reg, gaps: seq<FoldGap>, tail: seq<Event>, i: nat) {
    && gaps != [] && i <= |tail|
    && AlignedType(aggs, gaps[0].aggType)
    && gaps[0].Key() in reg.entries
    && var h := Stream(log, StreamOf(aggs, gaps[0].Key()));
       && gaps[0].expected + |tail| <= |h|
       && (forall j | 0 <= j < |tail| :: tail[j] == h[gaps[0].expected + j])
       && gaps[0].expected + i <= At(reg, gaps[0].Key()).Version()
  }

  /** The version is within the stream, and the state, while sound, is the
      prefix fold it names. */
  ghost predicate StateOk(aggs: Aggregators, sound: bool, log: Log, key: Key, state: State, version: nat) {
    AlignedType(aggs, key.aggType) && version <= |Stream(log, StreamOf(aggs, key))|
    && (sound ==> state == PrefixFold(aggs, key.aggType, Stream(log, StreamOf(aggs, key))[..version]))
  }

  /** Of the first `n` aggregators, none that folds `e` into an aligned key
      has left it behind `e`, except where a gap is still owed or, for a
      `lenient` count, where the entry at least exists by now. */
  ghost predicate Covered(aggs: Aggregators, n: nat, reg: Reg, e: Event, gaps: seq<FoldGap>, lenient: bool)
    requires n <= |aggs|
  {
    forall j, key: Key | 0 <= j < n && AlignedType(aggs, key.aggType) && aggs[j].Hits(key, e) ::
      || e.revision <= At(reg, key).Version()
      || (lenient && key in reg.entries)
      || exists g :: g in gaps && g.Key() == key
  }

  /** The first `n` aggregators have taken what they fold of `e` into an
      aligned key past `e`, except where a gap is owed. */
  ghost predicate Passed(aggs: Aggregators, n: nat, reg: Reg, e: Event, gaps: seq<FoldGap>)
    requires n <= |aggs|
  {
    forall j, key: Key | 0 <= j < n && AlignedType(aggs, key.aggType) && aggs[j].Hits(key, e) ::
      e.revision < At(reg, key).Version() || exists g :: g in gaps && g.Key() == key
  }

  ghost predicate PhaseOk(aggs: Aggregators, sound: bool, log: Log, reg: Reg, phase: Phase) {
    match phase
    case Finished(ok) => true
    case Applying(next, gaps) => next <= |aggs| && GapsOk(aggs, log, reg, gaps)
    case NextGap(gaps) => GapsOk(aggs, log, reg, gaps)
    case RestoreCheck(gaps) => gaps != [] && GapsOk(aggs, log, reg, gaps)
    case RestoreLoad(gaps) => gaps != [] && GapsOk(aggs, log, reg, gaps)
    case RestoreHeal(gaps, _) => gaps != [] && GapsOk(aggs, log, reg, gaps)
    case RestoreRead(gaps, seed, _) =>
      gaps != [] && GapsOk(aggs, log, reg, gaps)
      && StateOk(aggs, sound, log, gaps[0].Key(), seed.state, if seed.after.None? then 0 else seed.after.value + 1)
    case RestoreInstall(gaps, state, version, _) =>
      gaps != [] && GapsOk(aggs, log, reg, gaps) && StateOk(aggs, sound, log, gaps[0].Key(), state, version)
    case SeedBase(gaps) => gaps != [] && GapsOk(aggs, log, reg, gaps)
    case ReadTail(gaps) => gaps != [] && GapsOk(aggs, log, reg, gaps) && gaps[0].Key() in reg.entries
    case Tail(gaps, tail, i) => GapsOk(aggs, log, reg, gaps) && TailOk(aggs, log, reg, gaps, tail, i)
    case Replaying(gaps, tail, i, next, selfGapped) =>
      && GapsOk(aggs, log, reg, gaps) && TailOk(aggs, log, reg, gaps, tail, i)
      && i < |tail| && next <= |aggs| && !selfGapped
      && (forall j | 0 <= j < next && aggs[j].Hits(gaps[0].Key(), tail[i]) ::
            gaps[0].expected + i < At(reg, gaps[0].Key()).Version())
  }

  /** How far a fold has come. Its first round may lose a restore to a racing
      writer, but then every entry it needs exists; its second repairs them by
      their tails; its third owes nothing. There is no fourth. */
  ghost predicate Converging(aggs: Aggregators, log: Log, reg: Reg, t: Task)
    requires t.Folder?
  {
    var e, round := t.e, MAX_ROUNDS - t.rounds;
    && Committed(log, e)
    && 0 <= round <= 2
    && (round == 1 ==> Covered(aggs, |aggs|, reg, e, [], true))
    && (round == 2 ==> Covered(aggs, |aggs|, reg, e, [], false))
    && match t.phase
       case Finished(ok) => ok && Passed(aggs, |aggs|, reg, e, [])
       case Applying(next, gaps) =>
         && next <= |aggs| && Passed(aggs, next, reg, e, gaps)
         && GapsOwed(aggs, reg, e, gaps, round)
       case RestoreInstall(gaps, _, version, _) =>
         Owes(aggs, reg, e, gaps, round) && round == 0 && e.revision <= version
       case Tail(gaps, tail, i) =>
         Owes(aggs, reg, e, gaps, round) && gaps != [] && e.revision <= gaps[0].expected + |tail|
       case Replaying(gaps, tail, i, _, _) =>
         Owes(aggs, reg, e, gaps, round) && gaps != [] && e.revision <= gaps[0].expected + |tail|
       case NextGap(gaps) => Owes(aggs, reg, e, gaps, round)
       case ReadTail(gaps) => Owes(aggs, reg, e, gaps, round)
       case _ => Owes(aggs, reg, e, t.phase.gaps, round) && round == 0
  }

  ghost predicate GapsOwed(aggs: Aggregators, reg: Reg, e: Event, gaps: seq<FoldGap>, round: int) {
    && (forall g | g in gaps ::
          && Registered(aggs, g.aggType) && StreamOf(aggs, g.Key()) == e.stream && g.expected <= e.revision
          && (round >= 1 ==> g.Key() in reg.entries))
    && (round >= 2 ==> gaps == [])
  }

  ghost predicate Owes(aggs: Aggregators, reg: Reg, e: Event, gaps: seq<FoldGap>, round: int) {
    round <= 1 && Covered(aggs, |aggs|, reg, e, gaps, round == 0) && GapsOwed(aggs, reg, e, gaps, round)
  }

  ghost predicate TaskOk(aggs: Aggregators, sound: bool, log: Log, reg: Reg, t: Task) {
    && PhaseOk(aggs, sound, log, reg, t.phase)
    && (t.Folder? ==> Converging(aggs, log, reg, t))
    && (t.Reader? ==>
          !t.phase.Applying? && !t.phase.SeedBase? && !t.phase.ReadTail? && !t.phase.Tail? && !t.phase.Replaying?)
  }

  ghost predicate SaveOk(aggs: Aggregators, sound: bool, log: Log, reg: Reg, s: Save) {
    AlignedType(aggs, s.key.aggType) &&
    match s.phase
    case VersionRead(v) => v <= At(reg, s.key).Version()
    case SaveDue(v) => 0 < v <= At(reg, s.key).Version()
    case StateRead(v, state, seen) => 0 < v <= seen && StateOk(aggs, sound, log, s.key, state, seen)
    case _ => true
  }

  ghost predicate Inv(aggs: Aggregators, sound: bool, w: World) {
    && Sane(aggs, w.log) && RegHolds(aggs, sound, w.log, w.reg) && RowsHold(aggs, sound, w.log, w.rows)
    && (forall i | 0 <= i < |w.tasks| :: TaskOk(aggs, sound, w.log, w.reg, w.tasks[i]))
    && (forall i | 0 <= i < |w.saves| :: SaveOk(aggs, sound, w.log, w.reg, w.saves[i]))
  }

  /** What holds of sound worlds holds of worlds at large. */
  lemma Weaken(aggs: Aggregators, sound: bool, w: World)
    requires Inv(aggs, sound, w)
    ensures Inv(aggs, false, w)
  {
    forall key ensures SlotHolds(aggs, false, w.log, key, At(w.reg, key)) {
      assert SlotHolds(aggs, sound, w.log, key, At(w.reg, key));
    }
    forall i | 0 <= i < |w.tasks| ensures TaskOk(aggs, false, w.log, w.reg, w.tasks[i]) {
      assert TaskOk(aggs, sound, w.log, w.reg, w.tasks[i]);
    }
    forall i | 0 <= i < |w.saves| ensures SaveOk(aggs, false, w.log, w.reg, w.saves[i]) {
      assert SaveOk(aggs, sound, w.log, w.reg, w.saves[i]);
    }
  }

  // ── Growth of the log, progress of the others ─────────────────────

  lemma PrefixesAgree(aggs: Aggregators, log: Log, log': Log, key: Key, n: nat)
    requires log <= log' && Registered(aggs, key.aggType) && n <= |Stream(log, StreamOf(aggs, key))|
    ensures n <= |Stream(log', StreamOf(aggs, key))|
    ensures Stream(log', StreamOf(aggs, key))[..n] == Stream(log, StreamOf(aggs, key))[..n]
  {
    StreamGrows(log, log', StreamOf(aggs, key));
  }

  lemma RegOkGrows(aggs: Aggregators, sound: bool, log: Log, log': Log, reg: Reg)
    requires log <= log' && RegHolds(aggs, sound, log, reg)
    ensures RegHolds(aggs, sound, log', reg)
  {
    forall key ensures SlotHolds(aggs, sound, log', key, At(reg, key)) {
      assert SlotHolds(aggs, sound, log, key, At(reg, key));
      if AlignedType(aggs, key.aggType) && At(reg, key).entry.Some? {
        PrefixesAgree(aggs, log, log', key, At(reg, key).Version());
      }
    }
  }

  lemma RowsOkGrows(aggs: Aggregators, sound: bool, log: Log, log': Log, rows: Rows)
    requires log <= log' && RowsHold(aggs, sound, log, rows)
    ensures RowsHold(aggs, sound, log', rows)
  {
    if rows.Some? {
      forall key | key in rows.value ensures SnapshotHolds(aggs, sound, log', key, rows.value[key]) {
        assert SnapshotHolds(aggs, sound, log, key, rows.value[key]);
        if AlignedType(aggs, key.aggType) && rows.value[key].blob.Some? {
          PrefixesAgree(aggs, log, log', key, rows.value[key].revision + 1);
        }
      }
    }
  }

  /** A log that only grew and a registry whose versions only rose. */
  ghost predicate Later(aggs: Aggregators, log: Log, reg: Reg, log': Log, reg': Reg) {
    log <= log' && Advances(aggs, reg, reg')
  }

  lemma GapStable(aggs: Aggregators, log: Log, reg: Reg, log': Log, reg': Reg, g: FoldGap)
    requires GapOk(aggs, log, reg, g) && Later(aggs, log, reg, log', reg')
    ensures GapOk(aggs, log', reg', g)
  {
    StreamGrows(log, log', StreamOf(aggs, g.Key()));
    assert At(reg, g.Key()).Version() <= At(reg', g.Key()).Version();
  }

  lemma TailStable(aggs: Aggregators, log: Log, reg: Reg, log': Log, reg': Reg, gaps: seq<FoldGap>, tail: seq<Event>,
      i: nat)
    requires TailOk(aggs, log, reg, gaps, tail, i) && Later(aggs, log, reg, log', reg')
    ensures TailOk(aggs, log', reg', gaps, tail, i)
  {
    StreamGrows(log, log', StreamOf(aggs, gaps[0].Key()));
    assert At(reg, gaps[0].Key()).Version() <= At(reg', gaps[0].Key()).Version();
  }

  lemma StateStable(aggs: Aggregators, sound: bool, log: Log, log': Log, key: Key, state: State, version: nat)
    requires StateOk(aggs, sound, log, key, state, version) && log <= log'
    ensures StateOk(aggs, sound, log', key, state, version)
  {
    PrefixesAgree(aggs, log, log', key, version);
  }

  lemma PassedStable(aggs: Aggregators, n: nat, reg: Reg, reg': Reg, e: Event, gaps: seq<FoldGap>)
    requires n <= |aggs| && Passed(aggs, n, reg, e, gaps) && Advances(aggs, reg, reg')
    ensures Passed(aggs, n, reg', e, gaps)
  {
  }

  lemma CoveredStable(aggs: Aggregators, n: nat, reg: Reg, reg': Reg, e: Event, gaps: seq<FoldGap>, lenient: bool)
    requires n <= |aggs| && Covered(aggs, n, reg, e, gaps, lenient) && Advances(aggs, reg, reg')
    ensures Covered(aggs, n, reg', e, gaps, lenient)
  {
  }

  lemma OwedStable(aggs: Aggregators, reg: Reg, reg': Reg, e: Event, gaps: seq<FoldGap>, round: int)
    requires GapsOwed(aggs, reg, e, gaps, round) && Advances(aggs, reg, reg')
    requires forall g | g in gaps :: AlignedType(aggs, g.aggType)
    ensures GapsOwed(aggs, reg', e, gaps, round)
  {
  }

  lemma PhaseStable(aggs: Aggregators, sound: bool, log: Log, reg: Reg, log': Log, reg': Reg, phase: Phase)
    requires PhaseOk(aggs, sound, log, reg, phase) && Later(aggs, log, reg, log', reg')
    ensures PhaseOk(aggs, sound, log', reg', phase)
  {
    if !phase.Finished? {
      forall g | g in phase.gaps ensures GapOk(aggs, log', reg', g) {
        assert GapOk(aggs, log, reg, g);
        GapStable(aggs, log, reg, log', reg', g);
      }
    }
    match phase {
      case RestoreRead(gaps, seed, _) =>
        var n := if seed.after.None? then 0 else seed.after.value + 1;
        StateStable(aggs, sound, log, log', gaps[0].Key(), seed.state, n);
      case RestoreInstall(gaps, state, version, _) =>
        StateStable(aggs, sound, log, log', gaps[0].Key(), state, version);
      case ReadTail(gaps) =>
        assert GapOk(aggs, log, reg, gaps[0]);
        assert At(reg, gaps[0].Key()).Version() <= At(reg', gaps[0].Key()).Version();
      case Tail(gaps, tail, i) =>
        TailStable(aggs, log, reg, log', reg', gaps, tail, i);
      case Replaying(gaps, tail, i, _, _) =>
        TailStable(aggs, log, reg, log', reg', gaps, tail, i);
        assert At(reg, gaps[0].Key()).Version() <= At(reg', gaps[0].Key()).Version();
      case _ =>
    }
  }

  lemma TaskStable(aggs: Aggregators, sound: bool, log: Log, reg: Reg, log': Log, reg': Reg, t: Task)
    requires TaskOk(aggs, sound, log, reg, t) && Later(aggs, log, reg, log', reg')
    ensures TaskOk(aggs, sound, log', reg', t)
  {
    PhaseStable(aggs, sound, log, reg, log', reg', t.phase);
    if t.Folder? {
      CommittedGrows(log, log', t.e);
      var round := MAX_ROUNDS - t.rounds;
      if round == 1 { CoveredStable(aggs, |aggs|, reg, reg', t.e, [], true); }
      if round == 2 { CoveredStable(aggs, |aggs|, reg, reg', t.e, [], false); }
      if !t.phase.Finished? {
        forall g | g in t.phase.gaps ensures AlignedType(aggs, g.aggType) {
          assert GapOk(aggs, log, reg, g);
        }
        OwedStable(aggs, reg, reg', t.e, t.phase.gaps, round);
        if t.phase.Applying? {
          PassedStable(aggs, t.phase.next, reg, reg', t.e, t.phase.gaps);
        } else {
          CoveredStable(aggs, |aggs|, reg, reg', t.e, t.phase.gaps, round == 0);
        }
      } else {
        PassedStable(aggs, |aggs|, reg, reg', t.e, []);
      }
    }
  }

  // ── The steps ─────────────────────────────────────────────────────

  /** What a step owes everyone: a correct registry and snapshot store, no
      version lowered, and its own task's next phase in order. */
  ghost predicate StepOk(aggs: Aggregators, sound: bool, log: Log, reg: Reg, rows: Rows, t: Task) {
    var o := PhaseStep(aggs, log, reg, rows, t);
    && RegHolds(aggs, sound, log, o.reg) && RowsHold(aggs, sound, log, o.rows) && Advances(aggs, reg, o.reg)
    && TaskOk(aggs, sound, log, o.reg, TaskAfter(t, o.phase))
  }

  /** One event on one aligned slot: what the slot promises is kept, the
      version never falls, and it ends past the event unless that is a gap. */
  lemma ApplySlotHolds(aggs: Aggregators, sound: bool, log: Log, a: Aggregator, key: Key, slot: Slot, e: Event)
    requires Sane(aggs, log) && Committed(log, e)
    requires a in aggs && a.Hits(key, e) && AlignedType(aggs, key.aggType)
    requires SlotHolds(aggs, sound, log, key, slot)
    ensures var (slot', effect) := ApplySlot(a, slot, e);
            && SlotHolds(aggs, sound, log, key, slot')
            && slot.Version() <= slot'.Version()
            && (slot.entry.Some? ==> slot'.entry.Some?)
            && (effect.Gapped? <==> slot.Version() < e.revision)
            && (effect.Gapped? ==> slot' == slot)
            && (!effect.Gapped? ==> slot'.entry.Some? && e.revision < slot'.Version())
  {
    HitIsTheMatch(aggs, a, key, e);
    CommittedAligned(aggs, log, e);
    assert AlignedWith(a, e);
    if sound {
      assert SlotOk(aggs, log, key, slot);
      ApplySlotOk(aggs, log, a, key, slot, e);
    }
  }

  /** Moving the watermark past an event keeps what the slot promises when the
      event is foreign, or the entry past it. */
  lemma AdvanceSlotHolds(aggs: Aggregators, sound: bool, log: Log, key: Key, slot: Slot, r: nat, position: nat)
    requires AlignedType(aggs, key.aggType) && SlotHolds(aggs, sound, log, key, slot) && slot.entry.Some?
    requires r < |Stream(log, StreamOf(aggs, key))| && r <= slot.Version()
    requires r == slot.Version() ==>
               Matching(aggs, key.aggType, Stream(log, StreamOf(aggs, key))[r].kind).None?
    ensures SlotHolds(aggs, sound, log, key, AdvanceSlot(slot, r, position))
    ensures AdvanceSlot(slot, r, position).Version() == if slot.Version() == r then r + 1 else slot.Version()
  {
    if sound {
      assert SlotOk(aggs, log, key, slot);
      AdvanceSlotOk(aggs, log, key, slot, r, position);
    }
  }

  /** One aggregator's read-modify-write of a committed event, where it hits. */
  lemma ApplyHitOk(aggs: Aggregators, sound: bool, log: Log, reg: Reg, a: Aggregator, key: Key, e: Event)
    requires Sane(aggs, log) && RegHolds(aggs, sound, log, reg) && Committed(log, e) && a in aggs && a.Hits(key, e)
    ensures var (slot, effect) := ApplySlot(a, At(reg, key), e);
            && RegHolds(aggs, sound, log, Put(reg, key, slot)) && Advances(aggs, reg, Put(reg, key, slot))
            && At(Put(reg, key, slot), key) == slot
            && (AlignedType(aggs, key.aggType) <==> a.Aligned())
            && (a.Aligned() ==>
                 && StreamOf(aggs, key) == e.stream == StreamId(a.subject, key.id)
                 && (effect.Gapped? ==> slot == At(reg, key) && effect.expected == slot.Version() < e.revision)
                 && (!effect.Gapped? ==> e.revision < slot.Version()))
            && (effect.Gapped? ==> a.Aligned())
  {
    CommittedAligned(aggs, log, e);
    assert AlignedWith(a, e);
    HitIsTheMatch(aggs, a, key, e);
    assert SlotHolds(aggs, sound, log, key, At(reg, key));
    if a.Aligned() {
      ApplySlotHolds(aggs, sound, log, a, key, At(reg, key), e);
    }
    PutSlotOk(aggs, sound, log, reg, key, ApplySlot(a, At(reg, key), e).0);
  }

  /** The gaps one aggregator reports are real, its own and below the event. */
  ghost predicate OwnGaps(aggs: Aggregators, log: Log, a: Aggregator, reg: Reg, reg': Reg, e: Event,
      gaps: seq<FoldGap>) {
    forall g | g in gaps ::
      && GapOk(aggs, log, reg', g) && a.Hits(g.Key(), e) && StreamOf(aggs, g.Key()) == e.stream
      && g.expected == At(reg, g.Key()).Version() < e.revision
  }

  lemma ApplyNextOk(aggs: Aggregators, sound: bool, log: Log, reg: Reg, e: Event, j: nat)
    requires Sane(aggs, log) && RegHolds(aggs, sound, log, reg) && Committed(log, e) && j < |aggs|
    ensures var r := ApplyNext(aggs[j], Applied(reg, NO_OUTCOME, true), e);
            && r.ok && RegHolds(aggs, sound, log, r.reg) && Advances(aggs, reg, r.reg)
            && OwnGaps(aggs, log, aggs[j], reg, r.reg, e, r.out.gaps)
            && (forall key: Key | AlignedType(aggs, key.aggType) && aggs[j].Hits(key, e) ::
                  e.revision < At(r.reg, key).Version() || exists g :: g in r.out.gaps && g.Key() == key)
  {
    var a := aggs[j];
    CommittedAligned(aggs, log, e);
    assert AlignedWith(a, e);
    if a.kind == e.kind && a.idOf(e.payload).Some? {
      var key := Key(a.aggType, a.idOf(e.payload).value);
      ApplyHitOk(aggs, sound, log, reg, a, key, e);
      var r := ApplyNext(a, Applied(reg, NO_OUTCOME, true), e);
      var (_, effect) := ApplySlot(a, At(reg, key), e);
      if effect.Gapped? {
        var g := FoldGap(key.aggType, a.subject, key.id, effect.expected);
        assert r.out.gaps == [g] && g.Key() == key && g in r.out.gaps;
        StreamIsDense(log, e.stream);
        assert GapOk(aggs, log, r.reg, g);
      } else {
        assert r.out.gaps == [];
      }
      assert forall k: Key | a.Hits(k, e) :: k == key;
    }
  }

  lemma PutSlotOk(aggs: Aggregators, sound: bool, log: Log, reg: Reg, key: Key, slot: Slot)
    requires RegHolds(aggs, sound, log, reg) && SlotHolds(aggs, sound, log, key, slot)
    requires AlignedType(aggs, key.aggType) ==> At(reg, key).Version() <= slot.Version()
    requires (At(reg, key).entry.Some? ==> slot.entry.Some?) && (At(reg, key).prev.Some? ==> slot.prev.Some?)
    ensures RegHolds(aggs, sound, log, Put(reg, key, slot)) && Advances(aggs, reg, Put(reg, key, slot))
    ensures At(Put(reg, key, slot), key) == slot
  {
    var reg' := Put(reg, key, slot);
    assert At(reg', key) == slot;
    forall k ensures SlotHolds(aggs, sound, log, k, At(reg', k)) {
      assert SlotHolds(aggs, sound, log, k, At(reg, k));
      assert k != key ==> At(reg', k) == At(reg, k);
    }
    forall k: Key | AlignedType(aggs, k.aggType)
      ensures At(reg, k).Version() <= At(reg', k).Version() && (k in reg.entries ==> k in reg'.entries)
    {
      assert k != key ==> At(reg', k) == At(reg, k);
    }
  }

  lemma StayOk(aggs: Aggregators, reg: Reg)
    ensures Advances(aggs, reg, reg)
  {
  }

  lemma PassedGrows(aggs: Aggregators, next: nat, reg: Reg, e: Event, gaps: seq<FoldGap>, more: seq<FoldGap>)
    requires next < |aggs| && Passed(aggs, next, reg, e, gaps)
    requires forall key: Key | AlignedType(aggs, key.aggType) && aggs[next].Hits(key, e) ::
               e.revision < At(reg, key).Version() || exists g :: g in more && g.Key() == key
    ensures Passed(aggs, next + 1, reg, e, gaps + more)
  {
  }

  lemma GapIsBehind(aggs: Aggregators, log: Log, a: Aggregator, reg: Reg, reg': Reg, e: Event, gaps: seq<FoldGap>,
      k: nat)
    requires k < |gaps| && OwnGaps(aggs, log, a, reg, reg', e, gaps)
    ensures AlignedType(aggs, gaps[k].Key().aggType) && a.Hits(gaps[k].Key(), e)
    ensures At(reg, gaps[k].Key()).Version() < e.revision
  {
  }

  /** A gap found in a later round is on an entry that exists by then, and no
      gap is found once every key is caught up. */
  lemma LateGaps(aggs: Aggregators, log: Log, reg: Reg, reg': Reg, e: Event, j: nat, gaps: seq<FoldGap>, round: int)
    requires j < |aggs| && OwnGaps(aggs, log, aggs[j], reg, reg', e, gaps) && Advances(aggs, reg, reg')
    requires round == 1 ==> Covered(aggs, |aggs|, reg, e, [], true)
    requires round == 2 ==> Covered(aggs, |aggs|, reg, e, [], false)
    requires 0 <= round <= 2
    ensures GapsOwed(aggs, reg', e, gaps, round)
  {
    if round == 2 && gaps != [] {
      GapIsBehind(aggs, log, aggs[j], reg, reg', e, gaps, 0);
      assert false;
    }
    forall g | g in gaps ensures round == 1 ==> g.Key() in reg'.entries {
      assert GapOk(aggs, log, reg', g) && aggs[j].Hits(g.Key(), e);
      assert At(reg, g.Key()).Version() <= At(reg', g.Key()).Version();
    }
  }

  lemma ApplyingStep(aggs: Aggregators, sound: bool, log: Log, reg: Reg, rows: Rows, t: Task)
    requires Sane(aggs, log) && RegHolds(aggs, sound, log, reg) && RowsHold(aggs, sound, log, rows)
    requires TaskOk(aggs, sound, log, reg, t) && t.Folder? && t.phase.Applying?
    ensures StepOk(aggs, sound, log, reg, rows, t)
  {
    if t.phase.next < |aggs| {
      ApplyingOneStep(aggs, sound, log, reg, rows, t);
    } else {
      StayOk(aggs, reg);
      AppliedAll(aggs, sound, log, reg, t);
    }
  }

  lemma ApplyingOneStep(aggs: Aggregators, sound: bool, log: Log, reg: Reg, rows: Rows, t: Task)
    requires Sane(aggs, log) && RegHolds(aggs, sound, log, reg) && RowsHold(aggs, sound, log, rows)
    requires TaskOk(aggs, sound, log, reg, t) && t.Folder? && t.phase.Applying? && t.phase.next < |aggs|
    ensures StepOk(aggs, sound, log, reg, rows, t)
  {
    var r := ApplyNext(aggs[t.phase.next], Applied(reg, NO_OUTCOME, true), t.e);
    ApplyOneOk(aggs, sound, log, reg, t, r);
    assert PhaseStep(aggs, log, reg, rows, t)
        == StepOutcome(r.reg, rows, Applying(t.phase.next + 1, t.phase.gaps + r.out.gaps));
  }

  lemma ApplyOneOk(aggs: Aggregators, sound: bool, log: Log, reg: Reg, t: Task, r: Applied)
    requires Sane(aggs, log) && RegHolds(aggs, sound, log, reg)
    requires TaskOk(aggs, sound, log, reg, t) && t.Folder? && t.phase.Applying? && t.phase.next < |aggs|
    requires r == ApplyNext(aggs[t.phase.next], Applied(reg, NO_OUTCOME, true), t.e)
    ensures r.ok && RegHolds(aggs, sound, log, r.reg) && Advances(aggs, reg, r.reg)
    ensures TaskOk(aggs, sound, log, r.reg, TaskAfter(t, Applying(t.phase.next + 1, t.phase.gaps + r.out.gaps)))
  {
    ApplyNextOk(aggs, sound, log, reg, t.e, t.phase.next);
    TaskStable(aggs, sound, log, reg, log, r.reg, t);
    LateGaps(aggs, log, reg, r.reg, t.e, t.phase.next, r.out.gaps, MAX_ROUNDS - t.rounds);
    PassedGrows(aggs, t.phase.next, r.reg, t.e, t.phase.gaps, r.out.gaps);
    AppliedTaskOk(aggs, sound, log, r.reg, t, r.out.gaps);
  }

  lemma AppliedAll(aggs: Aggregators, sound: bool, log: Log, reg: Reg, t: Task)
    requires TaskOk(aggs, sound, log, reg, t) && t.Folder? && t.phase.Applying? && t.phase.next == |aggs|
    ensures TaskOk(aggs, sound, log, reg,
                   TaskAfter(t, if t.phase.gaps == [] then Finished(true) else NextGap(t.phase.gaps)))
  {
  }

  lemma AppliedTaskOk(aggs: Aggregators, sound: bool, log: Log, reg: Reg, t: Task, more: seq<FoldGap>)
    requires TaskOk(aggs, sound, log, reg, t) && t.Folder? && t.phase.Applying? && t.phase.next < |aggs|
    requires GapsOk(aggs, log, reg, more) && GapsOwed(aggs, reg, t.e, more, MAX_ROUNDS - t.rounds)
    requires Passed(aggs, t.phase.next + 1, reg, t.e, t.phase.gaps + more)
    ensures TaskOk(aggs, sound, log, reg, TaskAfter(t, Applying(t.phase.next + 1, t.phase.gaps + more)))
  {
  }

  /** The repair in progress is done: its key is no longer owed. */
  lemma HeadDone(aggs: Aggregators, reg: Reg, e: Event, gaps: seq<FoldGap>, round: int)
    requires Owes(aggs, reg, e, gaps, round) && gaps != []
    requires e.revision <= At(reg, gaps[0].Key()).Version() || (round == 0 && gaps[0].Key() in reg.entries)
    ensures Owes(aggs, reg, e, gaps[1..], round)
  {
  }

  lemma RestGapsOk(aggs: Aggregators, log: Log, reg: Reg, gaps: seq<FoldGap>)
    requires GapsOk(aggs, log, reg, gaps) && gaps != []
    ensures GapsOk(aggs, log, reg, gaps[1..])
  {
  }

  lemma NextGapStep(aggs: Aggregators, sound: bool, log: Log, reg: Reg, rows: Rows, t: Task)
    requires Sane(aggs, log) && RegHolds(aggs, sound, log, reg) && RowsHold(aggs, sound, log, rows)
    requires TaskOk(aggs, sound, log, reg, t) && t.phase.NextGap?
    ensures StepOk(aggs, sound, log, reg, rows, t)
  {
    StayOk(aggs, reg);
    RepairPhaseOk(aggs, sound, log, reg, t);
    assert PhaseStep(aggs, log, reg, rows, t) == StepOutcome(reg, rows, RepairPhase(reg, t, t.phase.gaps));
  }

  lemma {:induction false} RepairPhaseOk(aggs: Aggregators, sound: bool, log: Log, reg: Reg, t: Task)
    requires TaskOk(aggs, sound, log, reg, t) && t.phase.NextGap?
    ensures TaskOk(aggs, sound, log, reg, TaskAfter(t, RepairPhase(reg, t, t.phase.gaps)))
  {
    if t.phase.gaps == [] {
      if t.Folder? { RoundEnds(aggs, log, reg, t); }
    } else {
      RepairStarts(aggs, sound, log, reg, t);
      if t.Folder? { NextGapConverges(aggs, log, reg, t); }
    }
  }

  lemma {:induction false} RepairStarts(aggs: Aggregators, sound: bool, log: Log, reg: Reg, t: Task)
    requires TaskOk(aggs, sound, log, reg, t) && t.phase.NextGap? && t.phase.gaps != []
    ensures PhaseOk(aggs, sound, log, reg, RepairPhase(reg, t, t.phase.gaps))
  {
    assert GapOk(aggs, log, reg, t.phase.gaps[0]);
  }

  /** All repairs of a round are done: the next round starts with every entry
      it may need in place. */
  lemma RoundEnds(aggs: Aggregators, log: Log, reg: Reg, t: Task)
    requires t.Folder? && t.phase == NextGap([]) && Converging(aggs, log, reg, t)
    ensures Converging(aggs, log, reg, TaskAfter(t, Applying(0, []))) && MAX_ROUNDS - t.rounds <= 1
  {
  }

  lemma NextGapConverges(aggs: Aggregators, log: Log, reg: Reg, t: Task)
    requires t.Folder? && t.phase.NextGap? && t.phase.gaps != [] && Converging(aggs, log, reg, t)
    ensures Converging(aggs, log, reg, TaskAfter(t, RepairPhase(reg, t, t.phase.gaps)))
  {
    assert t.phase.gaps[0] in t.phase.gaps;
  }

  /** A racing writer installed the entry first: the restore counts as done,
      which a first round can afford because the entry now exists. */
  lemma RestoreLost(aggs: Aggregators, sound: bool, log: Log, reg: Reg, rows: Rows, t: Task)
    requires RegHolds(aggs, sound, log, reg) && RowsHold(aggs, sound, log, rows)
    requires TaskOk(aggs, sound, log, reg, t) && t.phase.RestoreCheck? && t.phase.gaps[0].Key() in reg.entries
    ensures StepOk(aggs, sound, log, reg, rows, t)
  {
    StayOk(aggs, reg);
    var gaps := t.phase.gaps;
    assert GapOk(aggs, log, reg, gaps[0]);
    RestGapsOk(aggs, log, reg, gaps);
    if t.Folder? { HeadDone(aggs, reg, t.e, gaps, MAX_ROUNDS - t.rounds); }
  }

  lemma RestoreLoadStep(aggs: Aggregators, sound: bool, log: Log, reg: Reg, rows: Rows, t: Task)
    requires Sane(aggs, log) && RegHolds(aggs, sound, log, reg) && RowsHold(aggs, sound, log, rows)
    requires TaskOk(aggs, sound, log, reg, t) && t.phase.RestoreLoad?
    ensures StepOk(aggs, sound, log, reg, rows, t)
  {
    var gaps := t.phase.gaps;
    assert GapOk(aggs, log, reg, gaps[0]);
    StayOk(aggs, reg);
    LoadedSeedOk(aggs, sound, log, rows, gaps[0].Key());
    var o := PhaseStep(aggs, log, reg, rows, t);
    assert o.reg == reg && o.rows == rows && (o.phase.RestoreHeal? || o.phase.RestoreRead?);
  }

  lemma RestoreCheckStep(aggs: Aggregators, sound: bool, log: Log, reg: Reg, rows: Rows, t: Task)
    requires Sane(aggs, log) && RegHolds(aggs, sound, log, reg) && RowsHold(aggs, sound, log, rows)
    requires TaskOk(aggs, sound, log, reg, t) && t.phase.RestoreCheck?
    ensures StepOk(aggs, sound, log, reg, rows, t)
  {
    var gaps := t.phase.gaps;
    assert GapOk(aggs, log, reg, gaps[0]);
    if gaps[0].Key() in reg.entries {
      RestoreLost(aggs, sound, log, reg, rows, t);
    } else {
      StayOk(aggs, reg);
      assert PhaseStep(aggs, log, reg, rows, t) == StepOutcome(reg, rows, RestoreLoad(gaps));
    }
  }

  lemma LoadedSeedOk(aggs: Aggregators, sound: bool, log: Log, rows: Rows, key: Key)
    requires RowsHold(aggs, sound, log, rows) && AlignedType(aggs, key.aggType)
    ensures var seed := SeedOf(Initial(aggs, key.aggType), LoadRow(rows, key));
            StateOk(aggs, sound, log, key, seed.state, if seed.after.None? then 0 else seed.after.value + 1)
  {
  }

  lemma RestoreHealStep(aggs: Aggregators, sound: bool, log: Log, reg: Reg, rows: Rows, t: Task)
    requires Sane(aggs, log) && RegHolds(aggs, sound, log, reg) && RowsHold(aggs, sound, log, rows)
    requires TaskOk(aggs, sound, log, reg, t) && t.phase.RestoreHeal?
    ensures StepOk(aggs, sound, log, reg, rows, t)
  {
    StayOk(aggs, reg);
    var gaps := t.phase.gaps;
    assert GapOk(aggs, log, reg, gaps[0]);
    assert Stream(log, StreamOf(aggs, gaps[0].Key()))[..0] == [];
    var rows' := PhaseStep(aggs, log, reg, rows, t).rows;
    if rows'.Some? {
      forall k | k in rows'.value ensures SnapshotHolds(aggs, sound, log, k, rows'.value[k]) {
        assert k in rows.value && rows.value[k] == rows'.value[k];
      }
    }
  }

  /** What a restore computes from a good seed: the fold of the whole stream. */
  ghost predicate ReadsWhole(aggs: Aggregators, sound: bool, log: Log, key: Key, seed: Seed, tail: seq<Event>) {
    AlignedType(aggs, key.aggType) &&
    var h := Stream(log, StreamOf(aggs, key));
    && (tail == [] && seed.after.None? <==> h == [])
    && (h != [] ==>
         && |h| == RestoredVersion(seed, tail)
         && StateOk(aggs, sound, log, key, ReplayOnto(aggs, key.aggType, seed.state, tail), |h|))
  }

  lemma RestoreReadComputes(aggs: Aggregators, sound: bool, log: Log, key: Key, seed: Seed)
    requires Sane(aggs, log) && AlignedType(aggs, key.aggType)
    requires StateOk(aggs, sound, log, key, seed.state, if seed.after.None? then 0 else seed.after.value + 1)
    ensures ReadsWhole(aggs, sound, log, key, seed, ReadStream(log, StreamOf(aggs, key), seed.after))
  {
    var h := Stream(log, StreamOf(aggs, key));
    var n := if seed.after.None? then 0 else seed.after.value + 1;
    StreamIsDense(log, StreamOf(aggs, key));
    assert ReadStream(log, StreamOf(aggs, key), seed.after) == h[n..];
    ReplayIsFold(aggs, key.aggType, h, n);
    assert h[..|h|] == h;
  }

  lemma RestoreReadStep(aggs: Aggregators, sound: bool, log: Log, reg: Reg, rows: Rows, t: Task)
    requires Sane(aggs, log) && RegHolds(aggs, sound, log, reg) && RowsHold(aggs, sound, log, rows)
    requires TaskOk(aggs, sound, log, reg, t) && t.phase.RestoreRead?
    ensures StepOk(aggs, sound, log, reg, rows, t)
  {
    StayOk(aggs, reg);
    var gaps := t.phase.gaps;
    assert GapOk(aggs, log, reg, gaps[0]);
    var tail := ReadStream(log, StreamId(gaps[0].subject, gaps[0].id), t.phase.seed.after);
    RestoreReadComputes(aggs, sound, log, gaps[0].Key(), t.phase.seed);
    RestorePhaseOk(aggs, sound, log, reg, t, tail);
    assert PhaseStep(aggs, log, reg, rows, t)
        == StepOutcome(reg, rows, RestorePhase(aggs, t, gaps, t.phase.seed, t.phase.snapshotAt, tail));
  }

  lemma RestorePhaseOk(aggs: Aggregators, sound: bool, log: Log, reg: Reg, t: Task, tail: seq<Event>)
    requires TaskOk(aggs, sound, log, reg, t) && t.phase.RestoreRead?
    requires ReadsWhole(aggs, sound, log, t.phase.gaps[0].Key(), t.phase.seed, tail)
    ensures var next := RestorePhase(aggs, t, t.phase.gaps, t.phase.seed, t.phase.snapshotAt, tail);
            TaskOk(aggs, sound, log, reg, TaskAfter(t, next))
  {
  }

  lemma RestoreInstallStep(aggs: Aggregators, sound: bool, log: Log, reg: Reg, rows: Rows, t: Task)
    requires Sane(aggs, log) && RegHolds(aggs, sound, log, reg) && RowsHold(aggs, sound, log, rows)
    requires TaskOk(aggs, sound, log, reg, t) && t.phase.RestoreInstall?
    ensures StepOk(aggs, sound, log, reg, rows, t)
  {
    var gaps := t.phase.gaps;
    var key := gaps[0].Key();
    assert SlotHolds(aggs, sound, log, key, At(reg, key));
    var slot' := InstallSlot(At(reg, key), t.phase.state, t.phase.version, t.phase.snapshotAt);
    PutSlotOk(aggs, sound, log, reg, key, slot');
    var reg' := Put(reg, key, slot');
    TaskStable(aggs, sound, log, reg, log, reg', t);
    assert PhaseStep(aggs, log, reg, rows, t) == StepOutcome(reg', rows, NextGap(gaps[1..]));
    InstalledTaskOk(aggs, sound, log, reg', t);
  }

  lemma InstalledTaskOk(aggs: Aggregators, sound: bool, log: Log, reg: Reg, t: Task)
    requires TaskOk(aggs, sound, log, reg, t) && t.phase.RestoreInstall?
    requires t.phase.version <= At(reg, t.phase.gaps[0].Key()).Version() && t.phase.gaps[0].Key() in reg.entries
    ensures TaskOk(aggs, sound, log, reg, TaskAfter(t, NextGap(t.phase.gaps[1..])))
  {
    RestGapsOk(aggs, log, reg, t.phase.gaps);
    if t.Folder? { HeadDone(aggs, reg, t.e, t.phase.gaps, MAX_ROUNDS - t.rounds); }
  }

  lemma SeedBaseStep(aggs: Aggregators, sound: bool, log: Log, reg: Reg, rows: Rows, t: Task)
    requires Sane(aggs, log) && RegHolds(aggs, sound, log, reg) && RowsHold(aggs, sound, log, rows)
    requires TaskOk(aggs, sound, log, reg, t) && t.phase.SeedBase?
    ensures StepOk(aggs, sound, log, reg, rows, t)
  {
    var gaps := t.phase.gaps;
    var key := gaps[0].Key();
    assert GapOk(aggs, log, reg, gaps[0]);
    assert SlotHolds(aggs, sound, log, key, At(reg, key));
    assert Stream(log, StreamOf(aggs, key))[..0] == [];
    var slot' := InstallSlot(At(reg, key), Initial(aggs, key.aggType), 0, 0);
    PutSlotOk(aggs, sound, log, reg, key, slot');
    TaskStable(aggs, sound, log, reg, log, Put(reg, key, slot'), t);
  }

  lemma ReadTailStep(aggs: Aggregators, sound: bool, log: Log, reg: Reg, rows: Rows, t: Task)
    requires Sane(aggs, log) && RegHolds(aggs, sound, log, reg) && RowsHold(aggs, sound, log, rows)
    requires TaskOk(aggs, sound, log, reg, t) && t.phase.ReadTail?
    ensures StepOk(aggs, sound, log, reg, rows, t)
  {
    StayOk(aggs, reg);
    var gaps := t.phase.gaps;
    assert GapOk(aggs, log, reg, gaps[0]);
    var h := Stream(log, StreamOf(aggs, gaps[0].Key()));
    var tail := h[gaps[0].expected..];
    assert ReadStream(log, StreamOf(aggs, gaps[0].Key()), AfterOf(gaps[0].expected)) == tail;
    assert TailOk(aggs, log, reg, gaps, tail, 0);
    TailReadConverges(aggs, log, reg, t, tail);
  }

  lemma TailReadConverges(aggs: Aggregators, log: Log, reg: Reg, t: Task, tail: seq<Event>)
    requires t.Folder? && t.phase.ReadTail? && Converging(aggs, log, reg, t) && t.phase.gaps != []
    requires GapOk(aggs, log, reg, t.phase.gaps[0])
    requires tail == Stream(log, StreamOf(aggs, t.phase.gaps[0].Key()))[t.phase.gaps[0].expected..]
    ensures Converging(aggs, log, reg, TaskAfter(t, Tail(t.phase.gaps, tail, 0)))
  {
  }

  lemma TailStep(aggs: Aggregators, sound: bool, log: Log, reg: Reg, rows: Rows, t: Task)
    requires Sane(aggs, log) && RegHolds(aggs, sound, log, reg) && RowsHold(aggs, sound, log, rows)
    requires TaskOk(aggs, sound, log, reg, t) && t.phase.Tail?
    ensures StepOk(aggs, sound, log, reg, rows, t)
  {
    StayOk(aggs, reg);
    var gaps, tail, i := t.phase.gaps, t.phase.tail, t.phase.i;
    StreamIsDense(log, StreamOf(aggs, gaps[0].Key()));
    if i >= |tail| || Past(Upto(t), tail[i]) {
      assert PhaseStep(aggs, log, reg, rows, t) == StepOutcome(reg, rows, NextGap(gaps[1..]));
      TailDone(aggs, sound, log, reg, t);
    } else {
      assert PhaseStep(aggs, log, reg, rows, t) == StepOutcome(reg, rows, Replaying(gaps, tail, i, 0, false));
    }
  }

  /** A repair that has read its tail to the end, or to its bound, is done. */
  lemma TailDone(aggs: Aggregators, sound: bool, log: Log, reg: Reg, t: Task)
    requires TaskOk(aggs, sound, log, reg, t) && t.phase.Tail?
    requires t.phase.i >= |t.phase.tail|
             || (&& Past(Upto(t), t.phase.tail[t.phase.i])
                 && t.phase.tail[t.phase.i].revision == t.phase.gaps[0].expected + t.phase.i)
    ensures TaskOk(aggs, sound, log, reg, TaskAfter(t, NextGap(t.phase.gaps[1..])))
  {
    RestGapsOk(aggs, log, reg, t.phase.gaps);
    HeadDone(aggs, reg, t.e, t.phase.gaps, MAX_ROUNDS - t.rounds);
  }

  /** A repairer's own key is never among the gaps of a tail event. */
  lemma NoSelfGap(aggs: Aggregators, log: Log, a: Aggregator, reg: Reg, reg': Reg, e: Event, out: Outcome, key: Key)
    requires OwnGaps(aggs, log, a, reg, reg', e, out.gaps) && e.revision <= At(reg, key).Version()
    ensures !SelfGapped(out, key)
  {
  }

  lemma ReplayOneStep(aggs: Aggregators, sound: bool, log: Log, reg: Reg, rows: Rows, t: Task)
    requires Sane(aggs, log) && RegHolds(aggs, sound, log, reg) && RowsHold(aggs, sound, log, rows)
    requires TaskOk(aggs, sound, log, reg, t) && t.phase.Replaying? && t.phase.next < |aggs|
    ensures StepOk(aggs, sound, log, reg, rows, t)
  {
    var next := t.phase.next;
    var r := ApplyNext(aggs[next], Applied(reg, NO_OUTCOME, true), t.phase.tail[t.phase.i]);
    ReplayOneReg(aggs, sound, log, reg, t.phase, r);
    TaskStable(aggs, sound, log, reg, log, r.reg, t);
    ReplayedTaskOk(aggs, sound, log, r.reg, t);
    ReplayOneComputes(aggs, log, reg, rows, t, r);
  }

  lemma ReplayOneComputes(aggs: Aggregators, log: Log, reg: Reg, rows: Rows, t: Task, r: Applied)
    requires t.phase.Replaying? && t.phase.next < |aggs| && t.phase.gaps != [] && t.phase.i < |t.phase.tail|
    requires r == ApplyNext(aggs[t.phase.next], Applied(reg, NO_OUTCOME, true), t.phase.tail[t.phase.i])
    requires r.ok && !t.phase.selfGapped && !SelfGapped(r.out, t.phase.gaps[0].Key())
    ensures PhaseStep(aggs, log, reg, rows, t) == StepOutcome(r.reg, rows,
              Replaying(t.phase.gaps, t.phase.tail, t.phase.i, t.phase.next + 1, t.phase.selfGapped))
  {
  }

  /** One aggregator's fold of a tail event: no gap on the repaired key. */
  lemma ReplayOneReg(aggs: Aggregators, sound: bool, log: Log, reg: Reg, phase: Phase, r: Applied)
    requires Sane(aggs, log) && RegHolds(aggs, sound, log, reg)
    requires PhaseOk(aggs, sound, log, reg, phase) && phase.Replaying? && phase.next < |aggs|
    requires r == ApplyNext(aggs[phase.next], Applied(reg, NO_OUTCOME, true), phase.tail[phase.i])
    ensures r.ok && RegHolds(aggs, sound, log, r.reg) && Advances(aggs, reg, r.reg)
    ensures !SelfGapped(r.out, phase.gaps[0].Key())
    ensures aggs[phase.next].Hits(phase.gaps[0].Key(), phase.tail[phase.i]) ==>
              phase.gaps[0].expected + phase.i < At(r.reg, phase.gaps[0].Key()).Version()
  {
    var key, e := phase.gaps[0].Key(), phase.tail[phase.i];
    TailEvent(aggs, log, reg, phase.gaps, phase.tail, phase.i);
    ApplyNextOk(aggs, sound, log, reg, e, phase.next);
    NoSelfGap(aggs, log, aggs[phase.next], reg, r.reg, e, r.out, key);
    NoGapMeansPast(aggs[phase.next], r, e, key, phase.gaps[0].expected + phase.i);
  }

  lemma NoGapMeansPast(a: Aggregator, r: Applied, e: Event, key: Key, revision: nat)
    requires e.revision == revision && !SelfGapped(r.out, key)
    requires a.Hits(key, e) ==> e.revision < At(r.reg, key).Version() || exists g :: g in r.out.gaps && g.Key() == key
    ensures a.Hits(key, e) ==> revision < At(r.reg, key).Version()
  {
  }

  lemma ReplayedTaskOk(aggs: Aggregators, sound: bool, log: Log, reg: Reg, t: Task)
    requires TaskOk(aggs, sound, log, reg, t) && t.phase.Replaying? && t.phase.next < |aggs|
    requires aggs[t.phase.next].Hits(t.phase.gaps[0].Key(), t.phase.tail[t.phase.i]) ==>
               t.phase.gaps[0].expected + t.phase.i < At(reg, t.phase.gaps[0].Key()).Version()
    ensures TaskOk(aggs, sound, log, reg,
                   TaskAfter(t, Replaying(t.phase.gaps, t.phase.tail, t.phase.i, t.phase.next + 1, t.phase.selfGapped)))
  {
  }

  lemma TailEvent(aggs: Aggregators, log: Log, reg: Reg, gaps: seq<FoldGap>, tail: seq<Event>, i: nat)
    requires Sane(aggs, log) && TailOk(aggs, log, reg, gaps, tail, i) && i < |tail|
    ensures var h := Stream(log, StreamOf(aggs, gaps[0].Key()));
            && tail[i].revision == gaps[0].expected + i < |h| && tail[i] == h[tail[i].revision]
            && tail[i].stream == StreamOf(aggs, gaps[0].Key()) && Committed(log, tail[i])
  {
    StreamIsDense(log, StreamOf(aggs, gaps[0].Key()));
  }

  lemma FoldedKindHits(aggs: Aggregators, log: Log, key: Key, e: Event) returns (j: nat)
    requires Sane(aggs, log) && Committed(log, e) && AlignedType(aggs, key.aggType) && e.stream == StreamOf(aggs, key)
    requires Matching(aggs, key.aggType, e.kind).Some?
    ensures j < |aggs| && aggs[j].Hits(key, e)
  {
    TargetedByKind(aggs, log, key, e);
    var i :| 0 <= i < |aggs| && aggs[i] == Matching(aggs, key.aggType, e.kind).value;
    j := i;
  }

  /** The advance after a replayed event never jumps one: the entry is already
      past it, or stands at it and the event is foreign. */
  lemma AdvanceNeverJumps(aggs: Aggregators, sound: bool, log: Log, reg: Reg, gaps: seq<FoldGap>, tail: seq<Event>,
      i: nat)
    requires Sane(aggs, log)
    requires PhaseOk(aggs, sound, log, reg, Replaying(gaps, tail, i, |aggs|, false))
    ensures var key, e, h := gaps[0].Key(), tail[i], Stream(log, StreamOf(aggs, gaps[0].Key()));
            && e.revision == gaps[0].expected + i <= At(reg, key).Version()
            && e.revision < |h| && e == h[e.revision]
            && (e.revision == At(reg, key).Version() ==> Matching(aggs, key.aggType, e.kind).None?)
  {
    var key, e := gaps[0].Key(), tail[i];
    TailEvent(aggs, log, reg, gaps, tail, i);
    if Matching(aggs, key.aggType, e.kind).Some? {
      var j := FoldedKindHits(aggs, log, key, e);
    }
  }

  lemma ReplayAdvanceStep(aggs: Aggregators, sound: bool, log: Log, reg: Reg, rows: Rows, t: Task, reg': Reg)
    requires Sane(aggs, log) && RegHolds(aggs, sound, log, reg) && RowsHold(aggs, sound, log, rows)
    requires TaskOk(aggs, sound, log, reg, t) && t.phase.Replaying? && t.phase.next == |aggs|
    requires reg' == PhaseStep(aggs, log, reg, rows, t).reg
    ensures RegHolds(aggs, sound, log, reg') && Advances(aggs, reg, reg')
    ensures t.phase.gaps[0].expected + t.phase.i < At(reg', t.phase.gaps[0].Key()).Version()
  {
    var gaps, tail, i := t.phase.gaps, t.phase.tail, t.phase.i;
    var key, e := gaps[0].Key(), tail[i];
    AdvanceNeverJumps(aggs, sound, log, reg, gaps, tail, i);
    assert SlotHolds(aggs, sound, log, key, At(reg, key));
    AdvanceSlotHolds(aggs, sound, log, key, At(reg, key), e.revision, e.position);
    PutSlotOk(aggs, sound, log, reg, key, AdvanceSlot(At(reg, key), e.revision, e.position));
  }

  lemma ReplayingStep(aggs: Aggregators, sound: bool, log: Log, reg: Reg, rows: Rows, t: Task)
    requires Sane(aggs, log) && RegHolds(aggs, sound, log, reg) && RowsHold(aggs, sound, log, rows)
    requires TaskOk(aggs, sound, log, reg, t) && t.phase.Replaying?
    ensures StepOk(aggs, sound, log, reg, rows, t)
  {
    if t.phase.next < |aggs| {
      ReplayOneStep(aggs, sound, log, reg, rows, t);
    } else {
      ReplayedAllStep(aggs, sound, log, reg, rows, t);
    }
  }

  lemma ReplayedAllStep(aggs: Aggregators, sound: bool, log: Log, reg: Reg, rows: Rows, t: Task)
    requires Sane(aggs, log) && RegHolds(aggs, sound, log, reg) && RowsHold(aggs, sound, log, rows)
    requires TaskOk(aggs, sound, log, reg, t) && t.phase.Replaying? && t.phase.next == |aggs|
    ensures StepOk(aggs, sound, log, reg, rows, t)
  {
    var o := PhaseStep(aggs, log, reg, rows, t);
    assert o.phase == Tail(t.phase.gaps, t.phase.tail, t.phase.i + 1) && o.rows == rows;
    ReplayAdvanceStep(aggs, sound, log, reg, rows, t, o.reg);
    TaskStable(aggs, sound, log, reg, log, o.reg, t);
    AdvancedTaskOk(aggs, sound, log, o.reg, t);
  }

  lemma AdvancedTaskOk(aggs: Aggregators, sound: bool, log: Log, reg: Reg, t: Task)
    requires TaskOk(aggs, sound, log, reg, t) && t.phase.Replaying?
    requires t.phase.gaps[0].expected + t.phase.i < At(reg, t.phase.gaps[0].Key()).Version()
    ensures TaskOk(aggs, sound, log, reg, TaskAfter(t, Tail(t.phase.gaps, t.phase.tail, t.phase.i + 1)))
  {
  }

  lemma RestoreStep(aggs: Aggregators, sound: bool, log: Log, reg: Reg, rows: Rows, t: Task)
    requires Sane(aggs, log) && RegHolds(aggs, sound, log, reg) && RowsHold(aggs, sound, log, rows)
    requires TaskOk(aggs, sound, log, reg, t)
    requires t.phase.RestoreCheck? || t.phase.RestoreLoad? || t.phase.RestoreHeal? || t.phase.RestoreRead?
             || t.phase.RestoreInstall?
    ensures StepOk(aggs, sound, log, reg, rows, t)
  {
    if t.phase.RestoreCheck? {
      RestoreCheckStep(aggs, sound, log, reg, rows, t);
    } else if t.phase.RestoreLoad? {
      RestoreLoadStep(aggs, sound, log, reg, rows, t);
    } else if t.phase.RestoreHeal? {
      RestoreHealStep(aggs, sound, log, reg, rows, t);
    } else if t.phase.RestoreRead? {
      RestoreReadStep(aggs, sound, log, reg, rows, t);
    } else {
      RestoreInstallStep(aggs, sound, log, reg, rows, t);
    }
  }

  lemma RepairStepKeeps(aggs: Aggregators, sound: bool, log: Log, reg: Reg, rows: Rows, t: Task)
    requires Sane(aggs, log) && RegHolds(aggs, sound, log, reg) && RowsHold(aggs, sound, log, rows)
    requires TaskOk(aggs, sound, log, reg, t)
    requires t.phase.SeedBase? || t.phase.ReadTail? || t.phase.Tail? || t.phase.Replaying?
    ensures StepOk(aggs, sound, log, reg, rows, t)
  {
    if t.phase.SeedBase? {
      SeedBaseStep(aggs, sound, log, reg, rows, t);
    } else if t.phase.ReadTail? {
      ReadTailStep(aggs, sound, log, reg, rows, t);
    } else if t.phase.Tail? {
      TailStep(aggs, sound, log, reg, rows, t);
    } else {
      ReplayingStep(aggs, sound, log, reg, rows, t);
    }
  }

  lemma FinishedStep(aggs: Aggregators, sound: bool, log: Log, reg: Reg, rows: Rows, t: Task)
    requires RegHolds(aggs, sound, log, reg) && RowsHold(aggs, sound, log, rows)
    requires TaskOk(aggs, sound, log, reg, t) && t.phase.Finished?
    ensures StepOk(aggs, sound, log, reg, rows, t)
  {
    StayOk(aggs, reg);
  }

  lemma AnyStep(aggs: Aggregators, sound: bool, log: Log, reg: Reg, rows: Rows, t: Task)
    requires Sane(aggs, log) && RegHolds(aggs, sound, log, reg) && RowsHold(aggs, sound, log, rows)
    requires TaskOk(aggs, sound, log, reg, t)
    ensures StepOk(aggs, sound, log, reg, rows, t)
  {
    if t.phase.Finished? {
      FinishedStep(aggs, sound, log, reg, rows, t);
    } else if t.phase.Applying? {
      ApplyingStep(aggs, sound, log, reg, rows, t);
    } else if t.phase.NextGap? {
      NextGapStep(aggs, sound, log, reg, rows, t);
    } else if t.phase.SeedBase? || t.phase.ReadTail? || t.phase.Tail? || t.phase.Replaying? {
      RepairStepKeeps(aggs, sound, log, reg, rows, t);
    } else {
      RestoreStep(aggs, sound, log, reg, rows, t);
    }
  }

  // ── The steps of a save ───────────────────────────────────────────

  lemma SaveStable(aggs: Aggregators, sound: bool, log: Log, reg: Reg, log': Log, reg': Reg, s: Save)
    requires SaveOk(aggs, sound, log, reg, s) && Later(aggs, log, reg, log', reg')
    ensures SaveOk(aggs, sound, log', reg', s)
  {
    assert At(reg, s.key).Version() <= At(reg', s.key).Version();
    if s.phase.StateRead? { StateStable(aggs, sound, log, log', s.key, s.phase.state, s.phase.seen); }
  }

  /** A save only reads, writes its row and marks its entry. */
  lemma SaveMovesKeeps(aggs: Aggregators, sound: bool, every: nat, w: World, i: nat, w': World)
    requires Inv(aggs, sound, w) && SaveMoves(every, w, i, w') && 0 < every
    ensures Inv(aggs, sound, w')
  {
    var s := w.saves[i];
    assert SaveOk(aggs, sound, w.log, w.reg, s);
    assert SlotHolds(aggs, sound, w.log, s.key, At(w.reg, s.key));
    assert SaveOk(aggs, sound, w.log, w.reg, w'.saves[i]);
  }

  /** The row a save writes is the prefix fold at the revision it names, if
      nothing of the aggregate was folded between its reads. */
  lemma WholeRowHolds(aggs: Aggregators, sound: bool, log: Log, s: Save)
    requires s.phase.StateRead? && AlignedType(aggs, s.key.aggType) && 0 < s.phase.version <= s.phase.seen
    requires StateOk(aggs, sound, log, s.key, s.phase.state, s.phase.seen)
    requires sound ==> Whole(aggs, log, s)
    ensures SnapshotHolds(aggs, sound, log, s.key, RowOf(s.phase))
  {
    if sound {
      FoldsAgree(aggs, s.key.aggType, Stream(log, StreamOf(aggs, s.key)), s.phase.version, s.phase.seen);
    }
  }

  lemma SaveWritesKeeps(aggs: Aggregators, sound: bool, w: World, i: nat, w': World)
    requires Inv(aggs, sound, w) && SaveWrites(w, i, w')
    requires sound ==> Whole(aggs, w.log, w.saves[i])
    ensures Inv(aggs, sound, w')
  {
    var s := w.saves[i];
    assert SaveOk(aggs, sound, w.log, w.reg, s);
    WholeRowHolds(aggs, sound, w.log, s);
    forall k | k in w'.rows.value ensures SnapshotHolds(aggs, sound, w.log, k, w'.rows.value[k]) {
      assert k != s.key ==> k in w.rows.value && w'.rows.value[k] == w.rows.value[k];
    }
  }

  lemma SaveMarksKeeps(aggs: Aggregators, sound: bool, w: World, i: nat, w': World)
    requires Inv(aggs, sound, w) && SaveMarks(w, i, w')
    ensures Inv(aggs, sound, w') && Later(aggs, w.log, w.reg, w'.log, w'.reg)
  {
    var s := w.saves[i];
    assert SaveOk(aggs, sound, w.log, w.reg, s);
    MarkOk(aggs, sound, w.log, w.reg, s.key, s.phase.version);
    OthersStable(aggs, sound, w, w');
    forall j | 0 <= j < |w'.saves| ensures SaveOk(aggs, sound, w'.log, w'.reg, w'.saves[j]) {
      assert j != i ==> w'.saves[j] == w.saves[j];
    }
  }

  lemma MarkOk(aggs: Aggregators, sound: bool, log: Log, reg: Reg, key: Key, version: nat)
    requires RegHolds(aggs, sound, log, reg)
    ensures RegHolds(aggs, sound, log, Marked(reg, key, version)) && Advances(aggs, reg, Marked(reg, key, version))
  {
    forall k ensures SlotHolds(aggs, sound, log, k, At(Marked(reg, key, version), k)) {
      assert SlotHolds(aggs, sound, log, k, At(reg, k));
    }
  }

  // ── Every step of the machine, every run ──────────────────────────

  lemma OthersStable(aggs: Aggregators, sound: bool, w: World, w': World)
    requires Inv(aggs, sound, w) && Later(aggs, w.log, w.reg, w'.log, w'.reg)
    ensures forall i | 0 <= i < |w.tasks| :: TaskOk(aggs, sound, w'.log, w'.reg, w.tasks[i])
    ensures forall i | 0 <= i < |w.saves| :: SaveOk(aggs, sound, w'.log, w'.reg, w.saves[i])
  {
    forall i | 0 <= i < |w.tasks| ensures TaskOk(aggs, sound, w'.log, w'.reg, w.tasks[i]) {
      TaskStable(aggs, sound, w.log, w.reg, w'.log, w'.reg, w.tasks[i]);
    }
    forall i | 0 <= i < |w.saves| ensures SaveOk(aggs, sound, w'.log, w'.reg, w.saves[i]) {
      SaveStable(aggs, sound, w.log, w.reg, w'.log, w'.reg, w.saves[i]);
    }
  }

  lemma RunTaskKeepsInv(aggs: Aggregators, sound: bool, w: World, i: nat, w': World)
    requires Inv(aggs, sound, w) && RunTask(aggs, w, i, w')
    ensures Inv(aggs, sound, w') && Later(aggs, w.log, w.reg, w'.log, w'.reg)
  {
    AnyStep(aggs, sound, w.log, w.reg, w.rows, w.tasks[i]);
    OthersStable(aggs, sound, w, w');
  }

  lemma SpawnKeepsInv(aggs: Aggregators, sound: bool, w: World, t: Task)
    requires Inv(aggs, sound, w) && TaskOk(aggs, sound, w.log, w.reg, t)
    ensures Inv(aggs, sound, w.(tasks := w.tasks + [t]))
  {
  }

  lemma GrowthKeepsInv(aggs: Aggregators, sound: bool, w: World, w': World)
    requires Inv(aggs, sound, w) && w.log <= w'.log && Sane(aggs, w'.log) && w' == w.(log := w'.log)
    ensures Inv(aggs, sound, w') && Later(aggs, w.log, w.reg, w'.log, w'.reg)
  {
    StayOk(aggs, w.reg);
    RegOkGrows(aggs, sound, w.log, w'.log, w.reg);
    RowsOkGrows(aggs, sound, w.log, w'.log, w.rows);
    OthersStable(aggs, sound, w, w');
  }

  /** A step of a save. */
  ghost predicate SaveSteps(aggs: Aggregators, every: nat, w: World, w': World) {
    || (exists key :: SpawnSave(aggs, every, w, key, w'))
    || (exists i :: SaveMoves(every, w, i, w'))
    || (exists i :: SaveWrites(w, i, w'))
    || (exists i :: SaveMarks(w, i, w'))
  }

  lemma SaveStepsKeep(aggs: Aggregators, sound: bool, every: nat, w: World, w': World)
    requires Inv(aggs, sound, w) && SaveSteps(aggs, every, w, w') && 0 < every
    requires sound ==> !Tears(aggs, w, w')
    ensures Inv(aggs, sound, w') && Later(aggs, w.log, w.reg, w'.log, w'.reg)
  {
    StayOk(aggs, w.reg);
    if key :| SpawnSave(aggs, every, w, key, w') {
      assert SaveOk(aggs, sound, w.log, w.reg, Save(key, SaveBegun));
    } else if i :| SaveMoves(every, w, i, w') {
      SaveMovesKeeps(aggs, sound, every, w, i, w');
    } else if i :| SaveWrites(w, i, w') {
      SaveWritesKeeps(aggs, sound, w, i, w');
    } else {
      var i :| SaveMarks(w, i, w');
      SaveMarksKeeps(aggs, sound, w, i, w');
    }
  }

  /** One step, whoever takes it: versions, gaps and rounds are kept by every
      step, and states by every step that stores no torn snapshot. */
  lemma NextKeepsInv(aggs: Aggregators, sound: bool, every: nat, w: World, w': World)
    requires Inv(aggs, sound, w) && Next(aggs, every, w, w') && 0 < every
    requires sound ==> !Tears(aggs, w, w')
    ensures Inv(aggs, sound, w') && Later(aggs, w.log, w.reg, w'.log, w'.reg)
  {
    StayOk(aggs, w.reg);
    if w.log <= w'.log && Sane(aggs, w'.log) && w' == w.(log := w'.log) {
      GrowthKeepsInv(aggs, sound, w, w');
    } else if e, strict :| SpawnFold(w, e, strict, w') {
      SpawnKeepsInv(aggs, sound, w, Folder(e, strict, MAX_ROUNDS, Applying(0, [])));
    } else if key :| SpawnReader(aggs, w, key, w') {
      var g := FoldGap(key.aggType, StreamOf(aggs, key).category, key.id, 0);
      assert g.Key() == key && GapOk(aggs, w.log, w.reg, g);
      SpawnKeepsInv(aggs, sound, w, Reader(NextGap([g])));
    } else if i :| RunTask(aggs, w, i, w') {
      RunTaskKeepsInv(aggs, sound, w, i, w');
    } else {
      SaveStepsKeep(aggs, sound, every, w, w');
    }
  }

  /** A run from an empty registry over any sane log, with any sound snapshots
      an earlier process may have left. */
  ghost predicate IsRun(aggs: Aggregators, every: nat, run: seq<World>) {
    && run != [] && 0 < every
    && Sane(aggs, run[0].log) && run[0].reg == EMPTY_REG && run[0].tasks == [] && run[0].saves == []
    && RowsOk(aggs, run[0].log, run[0].rows)
    && forall i | 0 < i < |run| :: Next(aggs, every, run[i - 1], run[i])
  }

  /** Step `i` of a run stores a torn snapshot. */
  ghost predicate TearsAt(aggs: Aggregators, run: seq<World>, i: nat) {
    0 < i < |run| && Tears(aggs, run[i - 1], run[i])
  }

  /** No snapshot stored up to step `j` was torn. */
  ghost predicate WholeUpto(aggs: Aggregators, run: seq<World>, j: nat) {
    forall i: nat | i <= j :: !TearsAt(aggs, run, i)
  }

  lemma {:induction false} RunKeepsInv(aggs: Aggregators, every: nat, run: seq<World>, j: nat, sound: bool)
    requires IsRun(aggs, every, run) && j < |run| && (sound ==> WholeUpto(aggs, run, j))
    ensures Inv(aggs, sound, run[j])
    decreases j
  {
    if j == 0 {
      var w := run[0];
      if w.rows.Some? {
        forall k | k in w.rows.value ensures SnapshotHolds(aggs, sound, w.log, k, w.rows.value[k]) {
          assert SnapshotOk(aggs, w.log, k, w.rows.value[k]);
        }
      }
    } else {
      RunKeepsInv(aggs, every, run, j - 1, sound);
      assert sound ==> !TearsAt(aggs, run, j);
      NextKeepsInv(aggs, sound, every, run[j - 1], run[j]);
    }
  }

  lemma {:induction false} RunOnlyAdvances(aggs: Aggregators, every: nat, run: seq<World>, i: nat, j: nat)
    requires IsRun(aggs, every, run) && i <= j < |run|
    ensures Later(aggs, run[i].log, run[i].reg, run[j].log, run[j].reg)
    decreases j
  {
    if i == j {
      StayOk(aggs, run[i].reg);
    } else {
      RunOnlyAdvances(aggs, every, run, i, j - 1);
      RunKeepsInv(aggs, every, run, j - 1, false);
      NextKeepsInv(aggs, false, every, run[j - 1], run[j]);
      AdvancesTransitive(aggs, run[i].reg, run[j - 1].reg, run[j].reg);
    }
  }

  /** What a task has to show: no repairer ever gaps on its own key, and a fold
      needs at most three rounds and ends well, every aggregate it reaches
      carried past its event. */
  ghost predicate TaskDelivers(aggs: Aggregators, reg: Reg, t: Task) {
    && (t.phase.Replaying? ==> !t.phase.selfGapped)
    && (t.Folder? ==> MAX_ROUNDS - 2 <= t.rounds)
    && (t.Folder? && t.phase.Finished? ==>
          t.phase.ok && forall key: Key | AlignedType(aggs, key.aggType) && Targets(aggs, key, t.e) ::
            t.e.revision < At(reg, key).Version())
  }

  lemma TaskOkDelivers(aggs: Aggregators, log: Log, reg: Reg, t: Task)
    requires TaskOk(aggs, false, log, reg, t)
    ensures TaskDelivers(aggs, reg, t)
  {
    if t.Folder? && t.phase.Finished? {
      forall key: Key | AlignedType(aggs, key.aggType) && Targets(aggs, key, t.e)
        ensures t.e.revision < At(reg, key).Version()
      {
        var a := Matching(aggs, key.aggType, t.e.kind).value;
        var j :| 0 <= j < |aggs| && aggs[j] == a;
        assert aggs[j].Hits(key, t.e);
      }
    }
  }

  /** Safety of every interleaving. In every world of every run versions lie
      within their streams, have never decreased, and every task delivers; and
      as long as no stored snapshot was torn, each aligned entry is the fold of
      exactly the stream prefix its version names, and every stored snapshot
      the prefix fold at its revision. */
  lemma EveryInterleavingIsSafe(aggs: Aggregators, every: nat, run: seq<World>, i: nat, j: nat)
    requires IsRun(aggs, every, run) && i <= j < |run|
    ensures Later(aggs, run[i].log, run[i].reg, run[j].log, run[j].reg)
    ensures forall key: Key | AlignedType(aggs, key.aggType) && key in run[j].reg.entries ::
              var entry, h := run[j].reg.entries[key], Stream(run[j].log, StreamOf(aggs, key));
              && entry.version <= |h|
              && (WholeUpto(aggs, run, j) ==> entry.state == PrefixFold(aggs, key.aggType, h[..entry.version]))
    ensures WholeUpto(aggs, run, j) ==> RowsOk(aggs, run[j].log, run[j].rows)
    ensures forall k | 0 <= k < |run[j].tasks| :: TaskDelivers(aggs, run[j].reg, run[j].tasks[k])
  {
    RunOnlyAdvances(aggs, every, run, i, j);
    RunKeepsInv(aggs, every, run, j, false);
    if WholeUpto(aggs, run, j) {
      RunKeepsInv(aggs, every, run, j, true);
      RowsAreOk(aggs, run[j]);
    }
    forall key: Key | AlignedType(aggs, key.aggType) && key in run[j].reg.entries
      ensures var entry, h := run[j].reg.entries[key], Stream(run[j].log, StreamOf(aggs, key));
              && entry.version <= |h|
              && (WholeUpto(aggs, run, j) ==> entry.state == PrefixFold(aggs, key.aggType, h[..entry.version]))
    {
      assert SlotHolds(aggs, false, run[j].log, key, At(run[j].reg, key));
      assert WholeUpto(aggs, run, j) ==> SlotHolds(aggs, true, run[j].log, key, At(run[j].reg, key));
    }
    forall k | 0 <= k < |run[j].tasks| ensures TaskDelivers(aggs, run[j].reg, run[j].tasks[k]) {
      TaskOkDelivers(aggs, run[j].log, run[j].reg, run[j].tasks[k]);
    }
  }

  lemma RowsAreOk(aggs: Aggregators, w: World)
    requires Inv(aggs, true, w)
    ensures RowsOk(aggs, w.log, w.rows)
  {
    if w.rows.Some? {
      forall key | key in w.rows.value ensures SnapshotOk(aggs, w.log, key, w.rows.value[key]) {
        assert SnapshotHolds(aggs, true, w.log, key, w.rows.value[key]);
      }
    }
  }
}
