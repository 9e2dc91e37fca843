/** Effect memoization: `remember` over a first-write-wins store, run by any
    number of racing executions of any keys. */
module Effects {
  import opened JsonValue
  import opened EventLog

  /** `site` is the call-site label. */
  datatype EffectKey = EffectKey(consumer: string, trigger: Uuid, site: string)

  /** An effect's in-memory result, and its round trip through JSON. */
  type Value(==, !new)

  datatype Codec = Codec(enc: Value -> Json, dec: Json -> Option<Value>) {
    ghost predicate Lossless() {
      forall v :: dec(enc(v)) == Some(v)
    }
  }

  class InMemoryEffectStore {
    var inner: map<EffectKey, Json>

    constructor ()
      ensures inner == map[]
    {
      inner := map[];
    }

    method Get(key: EffectKey) returns (value: Option<Json>)
      ensures value == if key in inner then Some(inner[key]) else None
    {
      value := if key in inner then Some(inner[key]) else None;
    }

    /** An existing entry is never overwritten. */
    method Put(key: EffectKey, value: Json) returns (canonical: Json)
      modifies this
      ensures inner == if key in old(inner) then old(inner) else old(inner)[key := value]
      ensures key in inner && canonical == inner[key]
    {
      if key !in inner { inner := inner[key := value]; }
      canonical := inner[key];
    }

    method Remove(key: EffectKey)
      modifies this
      ensures inner == old(inner) - {key}
    {
      inner := inner - {key};
    }
  }

  /** `remember` with nobody racing it; `computed` is what the computation
      would give, and `ran` says whether it was asked. */
  method Remember(store: InMemoryEffectStore, c: Codec, key: EffectKey, computed: Option<Value>)
    returns (r: Option<Value>, ran: bool)
    modifies store
    ensures ran <==> key !in old(store.inner)
    ensures key in old(store.inner) ==> r == c.dec(old(store.inner)[key]) && store.inner == old(store.inner)
    ensures ran && computed.None? ==> r == None && store.inner == old(store.inner)
    ensures ran && computed.Some? ==>
              store.inner == old(store.inner)[key := c.enc(computed.value)] && r == c.dec(c.enc(computed.value))
  {
    var cached := store.Get(key);
    if cached.Some? { return c.dec(cached.value), false; }
    if computed.None? { return None, true; }
    var canonical := store.Put(key, c.enc(computed.value));
    r, ran := c.dec(canonical), true;
  }

  // ── Racing executions ─────────────────────────────────────────────

  datatype Phase =
    | Called
    | Missed
    | Computed(value: Value)
    | Returned(value: Value)
    | Failed

  datatype Execution = Execution(key: EffectKey, phase: Phase)

  /** The store, the executions, and every value any of them computed. */
  datatype World = World(rows: map<EffectKey, Json>, execs: seq<Execution>, computed: seq<(EffectKey, Value)>)

  datatype Step =
    | Call(key: EffectKey)
    | Get(i: nat)
    | Compute(i: nat, outcome: Option<Value>)
    | Put(i: nat)
    | Remove(key: EffectKey)

  const START := World(map[], [], [])

  predicate Enabled(w: World, step: Step) {
    match step
    case Call(_) => true
    case Get(i) => i < |w.execs| && w.execs[i].phase.Called?
    case Compute(i, _) => i < |w.execs| && w.execs[i].phase.Missed?
    case Put(i) => i < |w.execs| && w.execs[i].phase.Computed?
    case Remove(_) => true
  }

  function Result(v: Option<Value>): Phase {
    if v.Some? then Returned(v.value) else Failed
  }

  function SetPhase(w: World, i: nat, phase: Phase): World
    requires i < |w.execs|
  {
    w.(execs := w.execs[i := w.execs[i].(phase := phase)])
  }

  function Do(c: Codec, w: World, step: Step): World
    requires Enabled(w, step)
  {
    match step
    case Call(key) => w.(execs := w.execs + [Execution(key, Called)])
    case Get(i) =>
      var key := w.execs[i].key;
      SetPhase(w, i, if key in w.rows then Result(c.dec(w.rows[key])) else Missed)
    case Compute(i, outcome) =>
      if outcome.None? then SetPhase(w, i, Failed)
      else SetPhase(w, i, Computed(outcome.value)).(computed := w.computed + [(w.execs[i].key, outcome.value)])
    case Put(i) =>
      var key := w.execs[i].key;
      var rows := if key in w.rows then w.rows else w.rows[key := c.enc(w.execs[i].phase.value)];
      SetPhase(w, i, Result(c.dec(rows[key]))).(rows := rows)
    case Remove(key) => w.(rows := w.rows - {key})
  }

  function After(c: Codec, run: seq<Step>): World {
    if run == [] then START
    else
      var w := After(c, run[..|run| - 1]);
      if Enabled(w, run[|run| - 1]) then Do(c, w, run[|run| - 1]) else w
  }

  predicate NoRemove(run: seq<Step>) {
    forall step | step in run :: !step.Remove?
  }

  // ── Agreement ─────────────────────────────────────────────────────

  ghost predicate ExecOk(c: Codec, w: World, x: Execution) {
    match x.phase
    case Computed(v) => (x.key, v) in w.computed
    case Returned(v) => x.key in w.rows && c.dec(w.rows[x.key]) == Some(v)
    case _ => true
  }

  ghost predicate RowOk(c: Codec, w: World, key: EffectKey)
    requires key in w.rows
  {
    exists k :: 0 <= k < |w.computed| && w.computed[k].0 == key && w.rows[key] == c.enc(w.computed[k].1)
  }

  ghost predicate Inv(c: Codec, w: World) {
    && (forall i | 0 <= i < |w.execs| :: ExecOk(c, w, w.execs[i]))
    && (forall key | key in w.rows :: RowOk(c, w, key))
  }

  /** Rows only appear, and stay. */
  ghost predicate Grows(w: World, w': World) {
    forall key | key in w.rows :: key in w'.rows && w'.rows[key] == w.rows[key]
  }

  lemma StepKeeps(c: Codec, w: World, step: Step)
    requires Inv(c, w) && Enabled(w, step) && !step.Remove?
    ensures Inv(c, Do(c, w, step)) && Grows(w, Do(c, w, step))
  {
    var w' := Do(c, w, step);
    forall j | 0 <= j < |w'.execs| ensures ExecOk(c, w', w'.execs[j]) {
      assert j < |w.execs| ==> ExecOk(c, w, w.execs[j]);
    }
    forall key | key in w'.rows ensures RowOk(c, w', key) {
      if key in w.rows {
        assert RowOk(c, w, key);
        var k :| 0 <= k < |w.computed| && w.computed[k].0 == key && w.rows[key] == c.enc(w.computed[k].1);
        assert w'.computed[k] == w.computed[k];
      } else {
        assert ExecOk(c, w, w.execs[step.i]);
        var k :| 0 <= k < |w.computed| && w.computed[k] == (key, w.execs[step.i].phase.value);
        assert w'.computed[k] == w.computed[k];
      }
    }
  }

  lemma {:induction false} RunKeeps(c: Codec, run: seq<Step>)
    requires NoRemove(run)
    ensures Inv(c, After(c, run))
  {
    if run != [] {
      var front, step := run[..|run| - 1], run[|run| - 1];
      assert step in run && forall s | s in front :: s in run;
      RunKeeps(c, front);
      if Enabled(After(c, front), step) { StepKeeps(c, After(c, front), step); }
    }
  }

  /** Some execution of `key` computed a value that reads back as `v`. */
  ghost predicate SomeoneComputed(c: Codec, w: World, key: EffectKey, v: Value) {
    exists k :: 0 <= k < |w.computed| && w.computed[k].0 == key && c.dec(c.enc(w.computed[k].1)) == Some(v)
  }

  /** Agreement: in any interleaving, with crashes anywhere, all executions of
      a key that return, return the same value: what one of them computed, as
      it reads back from the store — the value itself, if storing loses
      nothing of it. */
  lemma AllReturnsAgree(c: Codec, run: seq<Step>, i: nat, j: nat)
    requires NoRemove(run)
    requires var w := After(c, run);
             && i < |w.execs| && j < |w.execs| && w.execs[i].key == w.execs[j].key
             && w.execs[i].phase.Returned? && w.execs[j].phase.Returned?
    ensures var w := After(c, run);
            && w.execs[i].phase.value == w.execs[j].phase.value
            && SomeoneComputed(c, w, w.execs[i].key, w.execs[i].phase.value)
            && (c.Lossless() ==> (w.execs[i].key, w.execs[i].phase.value) in w.computed)
  {
    RunKeeps(c, run);
    var w := After(c, run);
    assert ExecOk(c, w, w.execs[i]) && ExecOk(c, w, w.execs[j]);
    assert RowOk(c, w, w.execs[i].key);
    var k :| 0 <= k < |w.computed| && w.computed[k].0 == w.execs[i].key
             && w.rows[w.execs[i].key] == c.enc(w.computed[k].1);
    assert c.Lossless() ==> w.computed[k] == (w.execs[i].key, w.execs[i].phase.value);
  }

  /** Where a call made after the row appeared can ever be. */
  ghost predicate Late(c: Codec, w: World, i: nat, key: EffectKey, row: Json) {
    && i < |w.execs| && w.execs[i].key == key && key in w.rows && w.rows[key] == row
    && (w.execs[i].phase.Called? || w.execs[i].phase == Result(c.dec(row)))
  }

  /** A call that has not looked yet when a result is stored never computes: in
      every continuation it waits, or has returned the stored result. */
  lemma {:induction false} LateCallNeverComputes(c: Codec, past: seq<Step>, run: seq<Step>, i: nat)
    requires NoRemove(run)
    requires var w := After(c, past); i < |w.execs| && w.execs[i].phase.Called? && w.execs[i].key in w.rows
    ensures var w := After(c, past);
            Late(c, After(c, past + run), i, w.execs[i].key, w.rows[w.execs[i].key])
    decreases |run|
  {
    var w := After(c, past);
    if run == [] {
      assert past + run == past;
    } else {
      var front, step := run[..|run| - 1], run[|run| - 1];
      assert step in run && forall s | s in front :: s in run;
      LateCallNeverComputes(c, past, front, i);
      assert (past + run)[..|past + run| - 1] == past + front;
      LateStep(c, After(c, past + front), step, i, w.execs[i].key, w.rows[w.execs[i].key]);
    }
  }

  lemma LateStep(c: Codec, w: World, step: Step, i: nat, key: EffectKey, row: Json)
    requires Late(c, w, i, key, row) && !step.Remove?
    ensures Enabled(w, step) ==> Late(c, Do(c, w, step), i, key, row)
  {
  }

  // ── Why removal waits for the floor ───────────────────────────────

  lemma Extend(c: Codec, run: seq<Step>, step: Step)
    requires Enabled(After(c, run), step)
    ensures After(c, run + [step]) == Do(c, After(c, run), step)
  {
  }

  lemma CallCompletes(c: Codec, past: seq<Step>, key: EffectKey, v: Value) returns (run: seq<Step>)
    requires c.Lossless() && key !in After(c, past).rows
    ensures var w, w' := After(c, past), After(c, run);
            && w'.execs == w.execs + [Execution(key, Returned(v))]
            && key in w'.rows
  {
    var w := After(c, past);
    var i := |w.execs|;
    Extend(c, past, Call(key));
    run := past + [Call(key)];
    Extend(c, run, Get(i));
    run := run + [Get(i)];
    assert After(c, run).execs == w.execs + [Execution(key, Missed)];
    Extend(c, run, Compute(i, Some(v)));
    run := run + [Compute(i, Some(v))];
    assert After(c, run).execs == w.execs + [Execution(key, Computed(v))];
    Extend(c, run, Put(i));
    run := run + [Put(i)];
    assert After(c, run).execs == w.execs + [Execution(key, Returned(v))];
  }

  /** With one removal in between, two executions disagree: an entry may go
      only when its trigger cannot be delivered again. */
  lemma RemovalBreaksAgreement(c: Codec, key: EffectKey, a: Value, b: Value) returns (run: seq<Step>)
    requires c.Lossless() && a != b
    ensures var w := After(c, run);
            w.execs == [Execution(key, Returned(a)), Execution(key, Returned(b))]
  {
    run := CallCompletes(c, [], key, a);
    Extend(c, run, Remove(key));
    run := run + [Remove(key)];
    run := CallCompletes(c, run, key, b);
  }
}
