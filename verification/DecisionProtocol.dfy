/** One decision per trigger, over every run: any number of workers deliver
    one trigger at least once, crash anywhere, and race a retention sweep that
    deletes aged records below the ack-floor. Logical time is kept for the
    retention window alone.

    The runner's contract: a delivery looks the record up while its trigger is
    above the floor, appends only what the store returned, and seals within
    `sealing` of its lookup and within `stamping` of stamping the record. */
module DecisionProtocol {
  import opened JsonValue

  /** An output batch; two executions need not decide the same one. */
  type Batch(==, !new)

  datatype Record = Record(batch: Batch, sealedAt: nat, parked: bool)

  /** `live` is the contract's first clause: without it a lookup may come
      after the floor has passed the trigger. */
  datatype Config = Config(position: nat, window: nat, sealing: nat, stamping: nat, live: bool)

  datatype Worker =
    | Dispatched
    | Missed(since: nat)
    | Stamped(since: nat, rec: Record)
    | Holding(rec: Record)

  datatype Sweep = Sweep(cutoff: int, floor: Option<nat>)

  /** `row` is the store's record for the trigger and `sealed` every record
      that ever became it; `appended` are the batches written to the log. */
  datatype World = World(
    now: nat,
    floor: nat,
    row: Option<Record>,
    sealed: seq<Record>,
    appended: seq<Batch>,
    workers: seq<Worker>,
    sweeps: seq<Sweep>)

  datatype Step =
    | Tick(to: nat)
    | Ack(to: nat)
    | Dispatch
    | Lookup(w: nat)
    | Decide(w: nat, batch: Batch, parked: bool)
    | Seal(w: nat)
    | Append(w: nat)
    | StartSweep
    | ReadFloor(s: nat)
    | Reclaim(s: nat)

  const START := World(0, 0, None, [], [], [], [])

  /** A step a run may take. A crash is a worker that takes no more steps. */
  predicate Enabled(c: Config, w: World, step: Step) {
    match step
    case Tick(to) => w.now <= to
    case Ack(to) => true
    case Dispatch => w.floor < c.position
    case Lookup(i) => i < |w.workers| && w.workers[i].Dispatched? && (c.live ==> w.floor < c.position)
    case Decide(i, _, _) => i < |w.workers| && w.workers[i].Missed?
    case Seal(i) =>
      && i < |w.workers| && w.workers[i].Stamped?
      && w.now <= w.workers[i].since + c.sealing
      && w.now <= w.workers[i].rec.sealedAt + c.stamping
    case Append(i) => i < |w.workers| && w.workers[i].Holding?
    case StartSweep => true
    case ReadFloor(j) => j < |w.sweeps|
    case Reclaim(j) => j < |w.sweeps| && w.sweeps[j].floor.Some?
  }

  /** `remove_reclaimable` on the trigger's row. */
  predicate Goes(c: Config, row: Option<Record>, sweep: Sweep) {
    && row.Some? && sweep.floor.Some?
    && row.value.sealedAt < sweep.cutoff && c.position <= sweep.floor.value && !row.value.parked
  }

  function Do(c: Config, w: World, step: Step): World
    requires Enabled(c, w, step)
  {
    match step
    case Tick(to) => w.(now := to)
    case Ack(to) => w.(floor := if to > w.floor then to else w.floor)
    case Dispatch => w.(workers := w.workers + [Dispatched])
    case Lookup(i) =>
      w.(workers := w.workers[i := if w.row.Some? then Holding(w.row.value) else Missed(w.now)])
    case Decide(i, batch, parked) =>
      w.(workers := w.workers[i := Stamped(w.workers[i].since, Record(batch, w.now, parked))])
    case Seal(i) =>
      var canonical := if w.row.Some? then w.row.value else w.workers[i].rec;
      w.(row := Some(canonical),
         sealed := if w.row.Some? then w.sealed else w.sealed + [canonical],
         workers := w.workers[i := Holding(canonical)])
    case Append(i) => w.(appended := w.appended + [w.workers[i].rec.batch])
    case StartSweep => w.(sweeps := w.sweeps + [Sweep(w.now - c.window, None)])
    case ReadFloor(j) => w.(sweeps := w.sweeps[j := w.sweeps[j].(floor := Some(w.floor))])
    case Reclaim(j) => if Goes(c, w.row, w.sweeps[j]) then w.(row := None) else w
  }

  // ── Runs ──────────────────────────────────────────────────────────

  function After(c: Config, run: seq<Step>): World {
    if run == [] then START
    else
      var w := After(c, run[..|run| - 1]);
      if Enabled(c, w, run[|run| - 1]) then Do(c, w, run[|run| - 1]) else w
  }

  /** Every output in the log comes from the only record ever sealed. */
  ghost predicate OneDecision(w: World) {
    |w.sealed| <= 1 && forall b | b in w.appended :: w.sealed != [] && b == w.sealed[0].batch
  }

  // ── The invariant ─────────────────────────────────────────────────

  predicate Unsealed(x: Worker) {
    x.Missed? || x.Stamped?
  }

  ghost predicate WorkerOk(c: Config, w: World, x: Worker) {
    && (x.Holding? ==> w.sealed != [] && x.rec == w.sealed[0])
    && (Unsealed(x) ==> x.since <= w.now)
    && (x.Stamped? ==> x.since <= x.rec.sealedAt <= w.now)
    // While the row stands, a worker that missed it looked before it was sealed.
    && (Unsealed(x) && w.row.Some? ==> x.since <= w.row.value.sealedAt + Slack(c) - c.sealing)
    // Once it is gone, such a worker is too late to seal.
    && (Unsealed(x) && w.row.None? && w.sealed != [] ==> x.since + c.sealing < w.now)
  }

  ghost predicate Inv(c: Config, w: World) {
    && |w.sealed| <= 1
    && (w.row.Some? ==> w.sealed == [w.row.value])
    && (w.sealed != [] && w.row.None? ==> c.position <= w.floor)
    && (forall b | b in w.appended :: w.sealed != [] && b == w.sealed[0].batch)
    && (forall x | x in w.workers :: WorkerOk(c, w, x))
    && (forall s | s in w.sweeps :: SweepOk(c, w, s))
  }

  ghost predicate SweepOk(c: Config, w: World, s: Sweep) {
    s.cutoff <= w.now - c.window && (s.floor.Some? ==> s.floor.value <= w.floor)
  }

  /** The largest gap between the stamp of a record and the last seal that
      could come from a lookup that missed it. */
  function Slack(c: Config): nat {
    c.sealing + if c.stamping < c.sealing then c.stamping else c.sealing
  }

  /** Changing one worker, with nothing else a worker's condition mentions. */
  lemma WorkerSet(c: Config, w: World, i: nat, x: Worker)
    requires Inv(c, w) && i < |w.workers| && WorkerOk(c, w, x)
    ensures Inv(c, w.(workers := w.workers[i := x]))
  {
    var w' := w.(workers := w.workers[i := x]);
    forall y | y in w'.workers ensures WorkerOk(c, w', y) {
      assert y == x || y in w.workers;
      assert WorkerOk(c, w, y);
    }
    forall s | s in w'.sweeps ensures SweepOk(c, w', s) {
      assert SweepOk(c, w, s);
    }
  }

  lemma TimePasses(c: Config, w: World, w': World)
    requires Inv(c, w) && w.now <= w'.now && w.floor <= w'.floor && w' == w.(now := w'.now, floor := w'.floor)
    ensures Inv(c, w')
  {
  }

  lemma SealKeeps(c: Config, w: World, i: nat)
    requires Inv(c, w) && Enabled(c, w, Seal(i))
    ensures Inv(c, Do(c, w, Seal(i)))
  {
    var x := w.workers[i];
    assert x in w.workers && WorkerOk(c, w, x);
    if w.row.Some? {
      WorkerSet(c, w, i, Holding(w.row.value));
    } else {
      assert w.sealed == [];
      var w1 := w.(row := Some(x.rec), sealed := [x.rec]);
      forall y | y in w1.workers ensures WorkerOk(c, w1, y) {
        assert WorkerOk(c, w, y);
      }
      forall s | s in w1.sweeps ensures SweepOk(c, w1, s) {
        assert SweepOk(c, w, s);
      }
      WorkerSet(c, w1, i, Holding(x.rec));
    }
  }

  /** A reclaimed record is so old that whoever missed it can no longer seal. */
  lemma ReclaimKeeps(c: Config, w: World, j: nat)
    requires Slack(c) <= c.window && Inv(c, w) && Enabled(c, w, Reclaim(j)) && Goes(c, w.row, w.sweeps[j])
    ensures Inv(c, Do(c, w, Reclaim(j)))
  {
    var w' := w.(row := None);
    assert w.sweeps[j] in w.sweeps && SweepOk(c, w, w.sweeps[j]);
    forall y | y in w'.workers ensures WorkerOk(c, w', y) {
      assert WorkerOk(c, w, y);
    }
    forall s | s in w'.sweeps ensures SweepOk(c, w', s) {
      assert SweepOk(c, w, s);
    }
  }

  lemma SweepSet(c: Config, w: World, sweeps: seq<Sweep>)
    requires Inv(c, w) && forall s | s in sweeps :: s in w.sweeps || SweepOk(c, w, s)
    ensures Inv(c, w.(sweeps := sweeps))
  {
  }

  lemma DispatchKeeps(c: Config, w: World)
    requires Inv(c, w)
    ensures Inv(c, w.(workers := w.workers + [Dispatched]))
  {
  }

  lemma AppendKeeps(c: Config, w: World, i: nat)
    requires Inv(c, w) && Enabled(c, w, Append(i))
    ensures Inv(c, Do(c, w, Append(i)))
  {
    var w' := Do(c, w, Append(i));
    assert w.workers[i] in w.workers && WorkerOk(c, w, w.workers[i]);
    forall y | y in w'.workers ensures WorkerOk(c, w', y) {
      assert WorkerOk(c, w, y);
    }
    forall s | s in w'.sweeps ensures SweepOk(c, w', s) {
      assert SweepOk(c, w, s);
    }
  }

  lemma StepKeeps(c: Config, w: World, step: Step)
    requires c.live && Slack(c) <= c.window && Inv(c, w) && Enabled(c, w, step)
    ensures Inv(c, Do(c, w, step))
  {
    match step {
      case Tick(to) => TimePasses(c, w, Do(c, w, step));
      case Ack(to) => TimePasses(c, w, Do(c, w, step));
      case Dispatch => DispatchKeeps(c, w);
      case Lookup(i) => WorkerSet(c, w, i, if w.row.Some? then Holding(w.row.value) else Missed(w.now));
      case Decide(i, batch, parked) =>
        assert WorkerOk(c, w, w.workers[i]);
        WorkerSet(c, w, i, Stamped(w.workers[i].since, Record(batch, w.now, parked)));
      case Seal(i) => SealKeeps(c, w, i);
      case Append(i) => AppendKeeps(c, w, i);
      case StartSweep => SweepSet(c, w, w.sweeps + [Sweep(w.now - c.window, None)]);
      case ReadFloor(j) =>
        assert SweepOk(c, w, w.sweeps[j]);
        SweepSet(c, w, w.sweeps[j := w.sweeps[j].(floor := Some(w.floor))]);
      case Reclaim(j) => if Goes(c, w.row, w.sweeps[j]) { ReclaimKeeps(c, w, j); }
    }
  }

  lemma {:induction false} RunKeeps(c: Config, run: seq<Step>)
    requires c.live && Slack(c) <= c.window
    ensures Inv(c, After(c, run))
  {
    if run != [] {
      RunKeeps(c, run[..|run| - 1]);
      var w, step := After(c, run[..|run| - 1]), run[|run| - 1];
      if Enabled(c, w, step) { StepKeeps(c, w, step); }
    }
  }

  /** Safety: with lookups above the floor and a window of at least `Slack`,
      at most one record is ever sealed and every output appended, by any
      worker in any run, is that record's. */
  lemma OneDecisionPerTrigger(c: Config, run: seq<Step>)
    requires c.live && Slack(c) <= c.window
    ensures OneDecision(After(c, run))
  {
    RunKeeps(c, run);
  }

  // ── The bound is exact ────────────────────────────────────────────

  lemma Extend(c: Config, run: seq<Step>, step: Step)
    requires Enabled(c, After(c, run), step)
    ensures After(c, run + [step]) == Do(c, After(c, run), step)
  {
  }

  lemma Decided(c: Config, b: Batch) returns (run: seq<Step>)
    requires c.position > 0
    ensures After(c, run) == World(0, 0, None, [], [], [Stamped(0, Record(b, 0, false))], [])
  {
    run := [];
    Extend(c, run, Dispatch);
    run := run + [Dispatch];
    Extend(c, run, Lookup(0));
    run := run + [Lookup(0)];
    assert After(c, run).workers == [Missed(0)];
    Extend(c, run, Decide(0, b, false));
    run := run + [Decide(0, b, false)];
    assert After(c, run).workers == [Stamped(0, Record(b, 0, false))];
  }

  /** A worker decides and seals late; another missed the record just before
      that and is about to decide for itself. */
  lemma SealedLate(c: Config, b: Batch) returns (run: seq<Step>)
    requires c.position > 0
    ensures var l := Slack(c) - c.sealing;
            var rec := Record(b, 0, false);
            After(c, run) == World(l, 0, Some(rec), [rec], [], [Holding(rec), Missed(l)], [])
  {
    var l := Slack(c) - c.sealing;
    var rec := Record(b, 0, false);
    run := Decided(c, b);
    Extend(c, run, Tick(l));
    run := run + [Tick(l)];
    Extend(c, run, Dispatch);
    run := run + [Dispatch];
    assert After(c, run).workers == [Stamped(0, rec), Dispatched];
    Extend(c, run, Lookup(1));
    run := run + [Lookup(1)];
    Extend(c, run, Seal(0));
    run := run + [Seal(0)];
    assert After(c, run).sealed == [rec];
  }

  /** The holder appends and the floor passes the trigger. */
  lemma Acked(c: Config, past: seq<Step>) returns (run: seq<Step>)
    requires var w := After(c, past); w.workers != [] && w.workers[0].Holding? && w.floor == 0
    ensures var w := After(c, past);
            After(c, run) == w.(appended := w.appended + [w.workers[0].rec.batch], floor := c.position)
  {
    run := past;
    Extend(c, run, Append(0));
    run := run + [Append(0)];
    Extend(c, run, Ack(c.position));
    run := run + [Ack(c.position)];
  }

  /** A sweep finds the record aged out and below the floor. */
  lemma Swept(c: Config, past: seq<Step>, now: nat) returns (run: seq<Step>)
    requires var w := After(c, past);
             && w.row.Some? && !w.row.value.parked && w.sweeps == [] && w.floor == c.position && w.now <= now
             && w.row.value.sealedAt < now - c.window
    ensures After(c, run)
         == After(c, past).(now := now, row := None, sweeps := [Sweep(now - c.window, Some(c.position))])
  {
    run := past;
    Extend(c, run, Tick(now));
    run := run + [Tick(now)];
    Extend(c, run, StartSweep);
    run := run + [StartSweep];
    assert After(c, run).sweeps == [Sweep(now - c.window, None)];
    Extend(c, run, ReadFloor(0));
    run := run + [ReadFloor(0)];
    assert After(c, run).sweeps == [Sweep(now - c.window, Some(c.position))];
    Extend(c, run, Reclaim(0));
    run := run + [Reclaim(0)];
  }

  /** A worker that missed the record decides, seals and appends after all. */
  lemma DecidedAgain(c: Config, past: seq<Step>, i: nat, b: Batch) returns (run: seq<Step>)
    requires var w := After(c, past); i < |w.workers| && w.workers[i].Missed? && w.row.None?
    requires After(c, past).now <= After(c, past).workers[i].since + c.sealing
    ensures b in After(c, run).appended && After(c, past).appended <= After(c, run).appended
  {
    run := past;
    var w := After(c, run);
    Extend(c, run, Decide(i, b, false));
    run := run + [Decide(i, b, false)];
    var w1 := After(c, run);
    assert w1.workers[i] == Stamped(w.workers[i].since, Record(b, w.now, false));
    Extend(c, run, Seal(i));
    run := run + [Seal(i)];
    assert After(c, run).workers[i].rec.batch == b;
    Extend(c, run, Append(i));
    run := run + [Append(i)];
    assert After(c, run).appended == w.appended + [b];
  }

  /** A shorter window is unsafe: some run puts two executions' outputs for
      the one trigger into the log. */
  lemma ShortWindowMixesDecisions(c: Config, b0: Batch, b1: Batch) returns (run: seq<Step>)
    requires c.position > 0 && c.window < Slack(c)
    ensures b0 in After(c, run).appended && b1 in After(c, run).appended
  {
    var l := Slack(c) - c.sealing;
    var late := SealedLate(c, b0);
    var acked := Acked(c, late);
    assert After(c, acked).appended == [b0];
    var early := Swept(c, acked, l + c.sealing);
    run := DecidedAgain(c, early, 1, b1);
    assert After(c, early).appended == [b0];
    assert After(c, run).appended[0] == b0;
  }

  /** The exact retention bound: every run keeps one decision if and only if
      the window covers `Slack`. */
  lemma WindowIsExact(c: Config, b0: Batch, b1: Batch)
    requires c.live && c.position > 0 && b0 != b1
    ensures (forall run :: OneDecision(After(c, run))) <==> Slack(c) <= c.window
  {
    if Slack(c) <= c.window {
      forall run ensures OneDecision(After(c, run)) {
        OneDecisionPerTrigger(c, run);
      }
    } else {
      var run := ShortWindowMixesDecisions(c, b0, b1);
      assert !OneDecision(After(c, run));
    }
  }

  /** And the contract's first clause is needed: if a lookup may follow the
      floor passing its trigger, no window is long enough, even with executions
      that take no time at all. */
  lemma StaleLookupMixesDecisions(c: Config, b0: Batch, b1: Batch) returns (run: seq<Step>)
    requires !c.live && c.position > 0
    ensures b0 in After(c, run).appended && b1 in After(c, run).appended
  {
    var past := SealedAtOnce(c, b0);
    Extend(c, past, Tick(c.window + 1));
    past := past + [Tick(c.window + 1)];
    Extend(c, past, Dispatch);
    past := past + [Dispatch];
    assert After(c, past).workers == [Holding(Record(b0, 0, false)), Dispatched];
    var acked := Acked(c, past);
    assert After(c, acked).appended == [b0];
    var swept := Swept(c, acked, c.window + 1);
    Extend(c, swept, Lookup(1));
    var missed := swept + [Lookup(1)];
    assert After(c, missed).workers[1] == Missed(c.window + 1);
    run := DecidedAgain(c, missed, 1, b1);
    assert After(c, run).appended[0] == b0;
  }

  lemma SealedAtOnce(c: Config, b: Batch) returns (run: seq<Step>)
    requires c.position > 0
    ensures var rec := Record(b, 0, false);
            After(c, run) == World(0, 0, Some(rec), [rec], [], [Holding(rec)], [])
  {
    var rec := Record(b, 0, false);
    run := Decided(c, b);
    Extend(c, run, Seal(0));
    run := run + [Seal(0)];
    assert After(c, run).sealed == [rec] && After(c, run).workers == [Holding(rec)];
  }
}
