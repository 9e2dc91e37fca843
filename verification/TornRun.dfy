/** A run of one process that stores a torn snapshot and then corrupts its own
    entry with it: a restore that saw the key vacant before the first fold
    loads the row, replays onto it what its state has folded already, and ends
    ahead of the live entry. */
module TornRun {
  import opened JsonValue
  import opened EventLog
  import opened Folding
  import opened Counting
  import opened RegistrySpec
  import opened RepairSpec
  import opened RegistryMachine
  import opened Toggle

  lemma Grows(aggs: Aggregators, every: nat, run: seq<World>, w: World)
    requires IsRun(aggs, every, run) && Next(aggs, every, run[|run| - 1], w)
    ensures IsRun(aggs, every, run + [w])
  {
  }

  /** A live fold of event `n`, before and after its read-modify-write. */
  function LiveFold(x: Scene, n: nat, next: nat): Task {
    Folder(x.Fact(n), false, MAX_ROUNDS, Applying(next, []))
  }

  /** The key's slot once `n` events are folded, `prev` being before the last. */
  function SlotAfter(x: Scene, n: nat): Slot
    requires n > 0
  {
    Slot(Some(Entry(x.After(n), n, n, 0)), Some(x.After(n - 1)))
  }

  function RegAfter(x: Scene, n: nat): Reg {
    if n == 0 then EMPTY_REG else Put(RegAfter(x, n - 1), x.Key(), SlotAfter(x, n))
  }

  lemma SlotIs(x: Scene, n: nat)
    ensures At(RegAfter(x, n), x.Key()) == if n == 0 then Slot(None, None) else SlotAfter(x, n)
  {
  }

  lemma {:induction false} FoldsNext(x: Scene, rows: Rows, log: Log, n: nat)
    requires x.Ok()
    ensures PhaseStep(x.Aggs(), log, RegAfter(x, n), rows, LiveFold(x, n, 0))
         == StepOutcome(RegAfter(x, n + 1), rows, Applying(1, []))
  {
    SlotIs(x, n);
    var a := x.Aggs()[0];
    var (slot, effect) := ApplySlot(a, At(RegAfter(x, n), x.Key()), x.Fact(n));
    assert slot == SlotAfter(x, n + 1) && effect.Folded?;
    var r := ApplyNext(a, Applied(RegAfter(x, n), NO_OUTCOME, true), x.Fact(n));
    assert r.ok && r.reg == RegAfter(x, n + 1) && r.out.gaps == [];
    var none: seq<FoldGap> := [];
    assert none + r.out.gaps == none;
  }

  /** Three events; a reader has seen that nothing is cached; one event is
      folded, one save has found it due and one more fold is about to happen. */
  function Stalled(x: Scene, n: nat, save: SavePhase, rows: Rows): World {
    World(x.Facts(3), RegAfter(x, n), rows, Tasks(x, n, RestoreLoad([Wanted(x)])), [Save(x.Key(), save)])
  }

  function Wanted(x: Scene): FoldGap {
    FoldGap(x.t, x.subject, x.id, 0)
  }

  function Tasks(x: Scene, n: nat, reader: Phase): seq<Task> {
    [Reader(reader)] + (if n > 0 then [LiveFold(x, 0, 1)] else []) + (if n > 1 then [LiveFold(x, 1, 1)] else [])
  }

  /** A reader finds no entry; then the first event is folded. */
  lemma {:induction false} RunToFirstFold(x: Scene) returns (run: seq<World>)
    requires x.Ok()
    ensures IsRun(x.Aggs(), 1, run)
    ensures run[|run| - 1] == World(x.Facts(3), RegAfter(x, 1), Some(map[]), Tasks(x, 1, RestoreLoad([Wanted(x)])), [])
  {
    SceneIsSane(x, 3);
    var aggs, none := x.Aggs(), Some(map[]);
    var w := World(x.Facts(3), EMPTY_REG, none, [], []);
    run := [w];
    var w' := w.(tasks := [Reader(NextGap([Wanted(x)]))]);
    assert SpawnReader(aggs, w, x.Key(), w');
    Grows(aggs, 1, run, w');
    run := run + [w'];
    run := RunTask0(x, run, NextGap([Wanted(x)]), RestoreCheck([Wanted(x)]));
    run := RunTask0(x, run, RestoreCheck([Wanted(x)]), RestoreLoad([Wanted(x)]));
    run := RunFold(x, run, 0, run[|run| - 1], []);
  }

  /** The reader, alone so far, takes its step from one phase to the next. */
  lemma {:induction false} RunTask0(x: Scene, past: seq<World>, phase: Phase, next: Phase) returns (run: seq<World>)
    requires x.Ok() && IsRun(x.Aggs(), 1, past)
    requires past[|past| - 1] == World(x.Facts(3), EMPTY_REG, Some(map[]), [Reader(phase)], [])
    requires PhaseStep(x.Aggs(), x.Facts(3), EMPTY_REG, Some(map[]), Reader(phase))
          == StepOutcome(EMPTY_REG, Some(map[]), next)
    ensures IsRun(x.Aggs(), 1, run)
    ensures run[|run| - 1] == World(x.Facts(3), EMPTY_REG, Some(map[]), [Reader(next)], [])
  {
    var w := past[|past| - 1];
    var w' := w.(tasks := [Reader(next)]);
    assert [Reader(phase)][0 := Reader(next)] == [Reader(next)];
    assert RunTask(x.Aggs(), w, 0, w');
    Grows(x.Aggs(), 1, past, w');
    run := past + [w'];
  }

  /** Event `n` is folded. */
  lemma {:induction false} RunFold(x: Scene, past: seq<World>, n: nat, w: World, saves: seq<Save>)
    returns (run: seq<World>)
    requires x.Ok() && n < 2 && IsRun(x.Aggs(), 1, past) && past[|past| - 1] == w
    requires w == World(x.Facts(3), RegAfter(x, n), w.rows, Tasks(x, n, RestoreLoad([Wanted(x)])), saves)
    ensures IsRun(x.Aggs(), 1, run)
    ensures run[|run| - 1]
         == World(x.Facts(3), RegAfter(x, n + 1), w.rows, Tasks(x, n + 1, RestoreLoad([Wanted(x)])), saves)
  {
    SceneStream(x, 3);
    var w1 := w.(tasks := w.tasks + [LiveFold(x, n, 0)]);
    assert x.Facts(3)[n] == x.Fact(n) && Committed(w.log, x.Fact(n));
    assert SpawnFold(w, x.Fact(n), false, w1);
    Grows(x.Aggs(), 1, past, w1);
    run := RunApply(x, past + [w1], n, w1);
    assert w.tasks + [LiveFold(x, n, 1)] == Tasks(x, n + 1, RestoreLoad([Wanted(x)]));
  }

  lemma {:induction false} RunApply(x: Scene, past: seq<World>, n: nat, w: World) returns (run: seq<World>)
    requires x.Ok() && IsRun(x.Aggs(), 1, past) && past[|past| - 1] == w && w.reg == RegAfter(x, n)
    requires w.tasks != [] && w.tasks[|w.tasks| - 1] == LiveFold(x, n, 0)
    ensures IsRun(x.Aggs(), 1, run)
    ensures run[|run| - 1]
         == w.(reg := RegAfter(x, n + 1), tasks := w.tasks[..|w.tasks| - 1] + [LiveFold(x, n, 1)])
  {
    FoldsNext(x, w.rows, w.log, n);
    var i := |w.tasks| - 1;
    var w' := w.(reg := RegAfter(x, n + 1), tasks := w.tasks[..i] + [LiveFold(x, n, 1)]);
    assert w'.tasks == w.tasks[i := LiveFold(x, n, 1)];
    assert RunTask(x.Aggs(), w, i, w');
    Grows(x.Aggs(), 1, past, w');
    run := past + [w'];
  }

  /** A save reads version 1, the second event is folded, the save reads that
      state and stores it. */
  lemma {:induction false} RunToTornRow(x: Scene) returns (run: seq<World>)
    requires x.Ok()
    ensures IsRun(x.Aggs(), 1, run)
    ensures run[|run| - 1] == Stalled(x, 2, RowWritten(1), Some(map[x.Key() := Snapshot(0, Some(x.a))]))
    ensures TearsAt(x.Aggs(), run, |run| - 1)
  {
    SceneIsSane(x, 3);
    SlotIs(x, 1);
    SlotIs(x, 2);
    var aggs, none := x.Aggs(), Some(map[]);
    run := RunToFirstFold(x);
    var w := run[|run| - 1];
    var w' := Stalled(x, 1, SaveBegun, none);
    assert SpawnSave(aggs, 1, w, x.Key(), w');
    Grows(aggs, 1, run, w');
    run, w := run + [w'], w';
    w' := Stalled(x, 1, VersionRead(1), none);
    assert SaveMoves(1, w, 0, w');
    Grows(aggs, 1, run, w');
    run, w := run + [w'], w';
    w' := Stalled(x, 1, SaveDue(1), none);
    assert SaveMoves(1, w, 0, w');
    Grows(aggs, 1, run, w');
    run := run + [w'];
    run := RunFold(x, run, 1, w', [Save(x.Key(), SaveDue(1))]);
    run := RunTear(x, run);
  }

  lemma {:induction false} RunTear(x: Scene, past: seq<World>) returns (run: seq<World>)
    requires x.Ok() && IsRun(x.Aggs(), 1, past) && past[|past| - 1] == Stalled(x, 2, SaveDue(1), Some(map[]))
    ensures IsRun(x.Aggs(), 1, run)
    ensures run[|run| - 1] == Stalled(x, 2, RowWritten(1), Some(map[x.Key() := Snapshot(0, Some(x.a))]))
    ensures TearsAt(x.Aggs(), run, |run| - 1)
  {
    SlotIs(x, 2);
    var aggs, w := x.Aggs(), past[|past| - 1];
    var w1 := Stalled(x, 2, StateRead(1, x.a, 2), Some(map[]));
    assert SaveMoves(1, w, 0, w1);
    Grows(aggs, 1, past, w1);
    run := past + [w1];
    var w2 := Stalled(x, 2, RowWritten(1), Some(map[x.Key() := Snapshot(0, Some(x.a))]));
    assert map[][x.Key() := Snapshot(0, Some(x.a))] == map[x.Key() := Snapshot(0, Some(x.a))];
    assert SaveWrites(w1, 0, w2);
    Grows(aggs, 1, run, w2);
    NotWhole(x, w1);
    run := run + [w2];
  }

  lemma {:induction false} NotWhole(x: Scene, w: World)
    requires x.Ok() && w == Stalled(x, 2, StateRead(1, x.a, 2), Some(map[]))
    ensures !Whole(x.Aggs(), w.log, w.saves[0])
  {
    SceneIsSane(x, 3);
    SceneStream(x, 3);
    var h := x.Facts(3)[1..2];
    assert h == [x.Fact(1)] && h[..0] == [];
    assert Matching(x.Aggs(), x.t, x.kind) == Some(x.Aggs()[0]);
    assert Matches(x.Aggs(), x.t, h[..0]) == 0;
    assert Matches(x.Aggs(), x.t, h) == 1;
  }

  /** What the reader makes of the torn row: version 3, and the state of four
      folds. */
  function Corrupted(x: Scene): World {
    World(x.Facts(3), Put(RegAfter(x, 2), x.Key(), Slot(Some(Entry(x.a, 3, 2, 1)), Some(x.b))),
          Some(map[x.Key() := Snapshot(0, Some(x.a))]), Tasks(x, 2, NextGap([])), [Save(x.Key(), RowWritten(1))])
  }

  lemma {:induction false} RunRestore(x: Scene, past: seq<World>) returns (run: seq<World>)
    requires x.Ok() && IsRun(x.Aggs(), 1, past)
    requires past[|past| - 1] == Stalled(x, 2, RowWritten(1), Some(map[x.Key() := Snapshot(0, Some(x.a))]))
    ensures IsRun(x.Aggs(), 1, run) && past <= run && run[|run| - 1] == Corrupted(x)
  {
    SceneIsSane(x, 3);
    var aggs, w := x.Aggs(), past[|past| - 1];
    var w1 := w.(tasks := Tasks(x, 2, RestoreRead([Wanted(x)], Seed(x.a, Some(0)), 1)));
    assert w1.tasks == w.tasks[0 := w1.tasks[0]];
    assert RunTask(aggs, w, 0, w1);
    Grows(aggs, 1, past, w1);
    run := RunReplay(x, past + [w1], w1);
  }

  lemma {:induction false} RunReplay(x: Scene, past: seq<World>, w1: World) returns (run: seq<World>)
    requires x.Ok() && IsRun(x.Aggs(), 1, past) && past[|past| - 1] == w1
    requires w1 == Corrupted(x).(reg := RegAfter(x, 2),
                                 tasks := Tasks(x, 2, RestoreRead([Wanted(x)], Seed(x.a, Some(0)), 1)))
    ensures IsRun(x.Aggs(), 1, run) && past <= run && run[|run| - 1] == Corrupted(x)
  {
    SceneIsSane(x, 3);
    RestReplays(x);
    var w2 := w1.(tasks := Tasks(x, 2, RestoreInstall([Wanted(x)], x.a, 3, 1)));
    assert w2.tasks == w1.tasks[0 := w2.tasks[0]];
    assert RunTask(x.Aggs(), w1, 0, w2);
    Grows(x.Aggs(), 1, past, w2);
    run := RunInstall(x, past + [w2], w2);
  }

  lemma {:induction false} RunInstall(x: Scene, past: seq<World>, w: World) returns (run: seq<World>)
    requires x.Ok() && IsRun(x.Aggs(), 1, past) && past[|past| - 1] == w
    requires w == Corrupted(x).(reg := RegAfter(x, 2), tasks := Tasks(x, 2, RestoreInstall([Wanted(x)], x.a, 3, 1)))
    ensures IsRun(x.Aggs(), 1, run) && past <= run && run[|run| - 1] == Corrupted(x)
  {
    SlotIs(x, 2);
    var w' := Corrupted(x);
    assert w'.tasks == w.tasks[0 := w'.tasks[0]] && [Wanted(x)][1..] == [];
    assert InstallSlot(At(w.reg, x.Key()), x.a, 3, 1) == Slot(Some(Entry(x.a, 3, 2, 1)), Some(x.b));
    assert RunTask(x.Aggs(), w, 0, w');
    Grows(x.Aggs(), 1, past, w');
    run := past + [w'];
  }

  /** The reader now loads the torn row and replays the rest of the stream onto
      it: an entry that claims three events but has folded four. */
  lemma {:induction false} TornRowCorruptsAnEntry(x: Scene) returns (run: seq<World>)
    requires x.Ok()
    ensures IsRun(x.Aggs(), 1, run)
    ensures var w := run[|run| - 1];
            var h := Stream(w.log, StreamOf(x.Aggs(), x.Key()));
            && !WholeUpto(x.Aggs(), run, |run| - 1) && !RowsOk(x.Aggs(), w.log, w.rows)
            && x.Key() in w.reg.entries && w.reg.entries[x.Key()].version == 3 == |h|
            && w.reg.entries[x.Key()].state != PrefixFold(x.Aggs(), x.t, h[..3])
  {
    var before := RunToTornRow(x);
    run := RunRestore(x, before);
    StillTorn(x, before, run);
    SceneIsSane(x, 3);
    SceneStream(x, 3);
    SceneFold(x, 3);
    RowIsBad(x, Corrupted(x).rows);
    assert x.Facts(3)[..3] == x.Facts(3);
  }

  lemma {:induction false} StillTorn(x: Scene, before: seq<World>, run: seq<World>)
    requires before != [] && before <= run && TearsAt(x.Aggs(), before, |before| - 1)
    ensures !WholeUpto(x.Aggs(), run, |run| - 1)
  {
    var m := |before| - 1;
    assert run[m - 1] == before[m - 1] && run[m] == before[m];
    assert TearsAt(x.Aggs(), run, m);
  }

  lemma {:induction false} RestReplays(x: Scene)
    requires x.Ok()
    ensures var tail := ReadStream(x.Facts(3), x.Home(), Some(0));
            tail == [x.Fact(1), x.Fact(2)] && ReplayOnto(x.Aggs(), x.t, x.a, tail) == x.a
  {
    SceneStream(x, 3);
    var tail := ReadStream(x.Facts(3), x.Home(), Some(0));
    assert tail == [x.Fact(1), x.Fact(2)];
    assert tail[1..] == [x.Fact(2)] && tail[1..][1..] == [];
    assert ReplayOne(x.Aggs(), 1, x.t, x.a, x.Fact(1)) == x.b;
    assert ReplayOne(x.Aggs(), 1, x.t, x.b, x.Fact(2)) == x.a;
    assert ReplayOnto(x.Aggs(), x.t, x.b, tail[1..]) == x.a;
  }

  lemma {:induction false} RowIsBad(x: Scene, rows: Rows)
    requires x.Ok() && rows == Some(map[x.Key() := Snapshot(0, Some(x.a))])
    ensures !RowsOk(x.Aggs(), x.Facts(3), rows)
  {
    SceneIsSane(x, 3);
    SceneStream(x, 3);
    SceneFold(x, 1);
    assert x.Facts(3)[..1] == x.Facts(1);
    assert !SnapshotOk(x.Aggs(), x.Facts(3), x.Key(), rows.value[x.Key()]);
  }
}
