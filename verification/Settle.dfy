/** `settle` for one fresh workflow: consumers scan the log and handle its
    events concurrently, while `settle` probes them one after another and then
    re-reads the high-water mark.

    The runner's contract: a probe succeeds only when the consumer has scanned
    to the mark and holds no unhandled trigger of the workflow, and a trigger
    is cleared only after every output it appended has bumped the tracker. The
    tracker's entry is pinned throughout and was not evicted before. */
module Settle {
  import opened JsonValue
  import opened EventLog

  /** A consumer: how far it has scanned, its unhandled triggers with the
      outputs they appended but have not bumped yet, and what it handled. */
  datatype Consumer = Consumer(scanned: nat, pending: map<nat, set<nat>>, handled: set<nat>)

  datatype Phase = Emitting | Reading | Probing(hw: nat, next: nat) | Returned(hw: nat)

  /** The log, reduced to whether each event is of the workflow; event `i` has
      position `i + 1`. `roots` are the emitted events, `emitted` the position
      the emit returned, `mark` the tracker's entry. */
  datatype World = World(
    log: seq<bool>,
    roots: set<nat>,
    emitted: nat,
    mark: Option<nat>,
    consumers: seq<Consumer>,
    phase: Phase)

  /** `oneRun`: the emit appends its events as one run, atomically before any
      output. `floored`: the mark is never taken below the emit's position, as
      documented; the code takes the tracker's entry as it is. */
  datatype Config = Config(consumers: nat, oneRun: bool, floored: bool)

  datatype Step =
    | Root
    | Other
    | Scan(c: nat, wants: bool)
    | Output(c: nat, trigger: nat)
    | Bump(c: nat, trigger: nat, output: nat)
    | Clear(c: nat, trigger: nat)
    | Begin
    | ReadMark
    | Probe
    | Reread

  function Mark(c: Config, w: World, fallback: nat): nat {
    var hw := if w.mark.Some? then w.mark.value else fallback;
    if c.floored then Max(hw, w.emitted) else hw
  }

  predicate Drained(x: Consumer, hw: nat) {
    hw <= x.scanned && x.pending == map[]
  }

  predicate Holds(w: World, c: nat, trigger: nat) {
    c < |w.consumers| && trigger in w.consumers[c].pending
  }

  predicate Enabled(c: Config, w: World, step: Step) {
    match step
    case Root => w.phase.Emitting? && (c.oneRun ==> forall i | 0 <= i < |w.log| && w.log[i] :: i in w.roots)
    case Other => true
    case Scan(k, _) => k < |w.consumers| && w.consumers[k].scanned < |w.log|
    case Output(k, t) => Holds(w, k, t)
    case Bump(k, t, o) => Holds(w, k, t) && o in w.consumers[k].pending[t]
    case Clear(k, t) => Holds(w, k, t) && w.consumers[k].pending[t] == {}
    case Begin => w.phase.Emitting? && 0 < w.emitted
    case ReadMark => w.phase.Reading?
    case Probe => w.phase.Probing? && w.phase.next < |w.consumers| && Drained(w.consumers[w.phase.next], w.phase.hw)
    case Reread => w.phase.Probing? && w.phase.next == |w.consumers|
  }

  function Do(c: Config, w: World, step: Step): World
    requires Enabled(c, w, step)
  {
    match step
    case Root => w.(log := w.log + [true], roots := w.roots + {|w.log|}, emitted := |w.log| + 1)
    case Other => w.(log := w.log + [false])
    case Scan(k, wants) =>
      var x := w.consumers[k];
      var x' := if w.log[x.scanned] && wants then x.(pending := x.pending[x.scanned := {}])
                else x.(handled := x.handled + {x.scanned});
      w.(consumers := w.consumers[k := x'.(scanned := x.scanned + 1)])
    case Output(k, t) =>
      var x := w.consumers[k];
      w.(log := w.log + [true], consumers := w.consumers[k := x.(pending := x.pending[t := x.pending[t] + {|w.log|}])])
    case Bump(k, t, o) =>
      var x := w.consumers[k];
      w.(mark := Some(Max(if w.mark.Some? then w.mark.value else 0, o + 1)),
         consumers := w.consumers[k := x.(pending := x.pending[t := x.pending[t] - {o}])])
    case Clear(k, t) =>
      var x := w.consumers[k];
      w.(consumers := w.consumers[k := x.(pending := x.pending - {t}, handled := x.handled + {t})])
    case Begin => w.(phase := Reading)
    case ReadMark => w.(phase := Probing(Mark(c, w, w.emitted), 0))
    case Probe => w.(phase := Probing(w.phase.hw, w.phase.next + 1))
    case Reread =>
      if Mark(c, w, w.phase.hw) == w.phase.hw then w.(phase := Returned(w.phase.hw)) else w.(phase := Reading)
  }

  function Start(c: Config): World {
    World([], {}, 0, None, seq(c.consumers, _ => Consumer(0, map[], {})), Emitting)
  }

  function After(c: Config, run: seq<Step>): World {
    if run == [] then Start(c)
    else
      var w := After(c, run[..|run| - 1]);
      if Enabled(c, w, run[|run| - 1]) then Do(c, w, run[|run| - 1]) else w
  }

  // ── Quiescence ────────────────────────────────────────────────────

  /** Every event of the workflow scanned and handled by every consumer, with
      nothing pending. */
  ghost predicate Quiescent(w: World) {
    forall k: nat | k < |w.consumers| :: AllHandled(w, w.consumers[k])
  }

  ghost predicate AllHandled(w: World, x: Consumer) {
    x.pending == map[] && forall i | 0 <= i < |w.log| && w.log[i] :: i < x.scanned && i in x.handled
  }

  // ── The invariant ─────────────────────────────────────────────────

  ghost predicate ConsumerOk(log: seq<bool>, roots: set<nat>, x: Consumer) {
    && x.scanned <= |log|
    && (forall t | t in x.pending :: t < x.scanned && log[t] && OutputsOk(log, roots, t, x.pending[t]))
    && (forall i: nat | i < x.scanned && log[i] :: i in x.pending || i in x.handled)
  }

  /** A trigger's unbumped outputs are later events of the workflow. */
  ghost predicate OutputsOk(log: seq<bool>, roots: set<nat>, t: nat, outputs: set<nat>) {
    forall o | o in outputs :: t < o < |log| && log[o] && o !in roots
  }

  /** Some consumer appended event `i` and has yet to bump it. */
  ghost predicate Unbumped(consumers: seq<Consumer>, i: nat) {
    exists k: nat, t: nat :: UnbumpedBy(consumers, k, t, i)
  }

  ghost predicate UnbumpedBy(consumers: seq<Consumer>, k: nat, t: nat, i: nat) {
    k < |consumers| && t in consumers[k].pending && i in consumers[k].pending[t]
  }

  /** Every event of the workflow is a root, or covered by the mark, or waits
      to be bumped by a trigger still pending. */
  ghost predicate Accounted(w: World, i: nat) {
    i in w.roots || (w.mark.Some? && i < w.mark.value) || Unbumped(w.consumers, i)
  }

  ghost predicate ConsumersOk(w: World) {
    forall k: nat {:trigger ConsumerOk(w.log, w.roots, w.consumers[k])} | k < |w.consumers| ::
      ConsumerOk(w.log, w.roots, w.consumers[k])
  }

  ghost predicate AllAccounted(w: World) {
    forall i: nat {:trigger Accounted(w, i)} | i < |w.log| && w.log[i] :: Accounted(w, i)
  }

  ghost predicate RootsOk(w: World) {
    && (forall i | i in w.roots :: i < w.emitted <= |w.log|)
    && (0 < w.emitted ==> w.emitted - 1 in w.roots)
  }

  /** Probed consumers can only be busy with events past the mark. */
  ghost predicate ProbedOk(x: Consumer, hw: nat) {
    hw <= x.scanned && forall t | t in x.pending :: hw <= t
  }

  ghost predicate PhaseOk(w: World) {
    match w.phase
    case Probing(hw, next) =>
      && next <= |w.consumers|
      && (w.mark.None? ==> w.emitted <= hw)
      && forall k: nat | k < next :: ProbedOk(w.consumers[k], hw)
    case Returned(hw) => w.emitted <= hw ==> Quiescent(w)
    case _ => true
  }

  ghost predicate HasOutput(w: World) {
    exists j: nat :: j < |w.log| && w.log[j] && j !in w.roots
  }

  /** A one-run emit precedes every output, so any mark covers it. */
  ghost predicate RootsFirst(w: World) {
    && (forall j: nat | j < |w.log| && w.log[j] && j !in w.roots :: w.emitted <= j)
    && (w.mark.Some? ==> w.emitted <= w.mark.value && HasOutput(w))
  }

  ghost predicate Covered(c: Config, w: World) {
    && (c.oneRun ==> RootsFirst(w))
    && (c.oneRun || c.floored ==>
          && (w.phase.Probing? ==> w.emitted <= w.phase.hw)
          && (w.phase.Returned? ==> w.emitted <= w.phase.hw))
  }

  ghost predicate Inv(c: Config, w: World) {
    ConsumersOk(w) && AllAccounted(w) && RootsOk(w) && PhaseOk(w) && Covered(c, w)
  }

  // ── The log grows ─────────────────────────────────────────────────

  lemma ConsumerGrows(log: seq<bool>, roots: set<nat>, b: bool, roots': set<nat>, x: Consumer)
    requires ConsumerOk(log, roots, x) && roots' <= roots + {|log|}
    ensures ConsumerOk(log + [b], roots', x)
  {
  }

  lemma LogGrows(w: World, b: bool, roots': set<nat>)
    requires ConsumersOk(w) && roots' <= w.roots + {|w.log|}
    ensures ConsumersOk(w.(log := w.log + [b], roots := roots'))
  {
    forall k: nat | k < |w.consumers| ensures ConsumerOk(w.log + [b], roots', w.consumers[k]) {
      ConsumerGrows(w.log, w.roots, b, roots', w.consumers[k]);
    }
  }

  lemma RootKeeps(c: Config, w: World)
    requires Inv(c, w) && Enabled(c, w, Root)
    ensures Inv(c, Do(c, w, Root))
  {
    var w' := Do(c, w, Root);
    LogGrows(w, true, w'.roots);
    forall i: nat | i < |w'.log| && w'.log[i] ensures Accounted(w', i) {
      assert i < |w.log| ==> Accounted(w, i);
    }
    if c.oneRun { assert !HasOutput(w); }
  }

  lemma OtherKeeps(c: Config, w: World)
    requires Inv(c, w)
    ensures Inv(c, Do(c, w, Other))
  {
    var w' := Do(c, w, Other);
    LogGrows(w, false, w.roots);
    forall i: nat | i < |w'.log| && w'.log[i] ensures Accounted(w', i) {
      assert Accounted(w, i);
    }
    if w.phase.Returned? && w.emitted <= w.phase.hw { QuiescentStays(w, w'); }
    if HasOutput(w) { StillHasOutput(w, w'); }
  }

  lemma StillHasOutput(w: World, w': World)
    requires HasOutput(w) && w.log <= w'.log && w'.roots == w.roots
    ensures HasOutput(w')
  {
  }

  lemma QuiescentStays(w: World, w': World)
    requires Quiescent(w) && w' == w.(log := w.log + [false])
    ensures Quiescent(w')
  {
  }

  // ── A consumer's own steps ────────────────────────────────────────

  lemma SetConsumer(w: World, k: nat, x: Consumer)
    requires ConsumersOk(w) && k < |w.consumers| && ConsumerOk(w.log, w.roots, x)
    ensures ConsumersOk(w.(consumers := w.consumers[k := x]))
  {
  }

  /** Whoever waited to be bumped still waits, if consumer `k` still holds it. */
  lemma StillUnbumped(consumers: seq<Consumer>, k: nat, x: Consumer, i: nat)
    requires k < |consumers| && Unbumped(consumers, i)
    requires forall t | t in consumers[k].pending && i in consumers[k].pending[t] :: t in x.pending && i in x.pending[t]
    ensures Unbumped(consumers[k := x], i)
  {
    var j: nat, t: nat :| UnbumpedBy(consumers, j, t, i);
    assert UnbumpedBy(consumers[k := x], j, t, i);
  }

  /** A probed consumer that scans on or finishes work stays as probed. */
  lemma PhaseKept(w: World, w': World, k: nat, x: Consumer)
    requires PhaseOk(w) && k < |w.consumers| && !w.phase.Returned?
    requires w'.consumers == w.consumers[k := x] && w'.phase == w.phase && w'.emitted == w.emitted
    requires w.mark.Some? ==> w'.mark.Some?
    requires w.consumers[k].scanned <= x.scanned
    requires forall t | t in x.pending :: t in w.consumers[k].pending || w.consumers[k].scanned <= t
    ensures PhaseOk(w')
  {
  }

  lemma ScanKeeps(c: Config, w: World, k: nat, wants: bool)
    requires Inv(c, w) && Enabled(c, w, Scan(k, wants))
    ensures Inv(c, Do(c, w, Scan(k, wants)))
  {
    var w' := Do(c, w, Scan(k, wants));
    var x, x' := w.consumers[k], w'.consumers[k];
    assert ConsumerOk(w.log, w.roots, x);
    SetConsumer(w, k, x');
    forall i: nat | i < |w'.log| && w'.log[i] ensures Accounted(w', i) {
      assert Accounted(w, i);
      if Unbumped(w.consumers, i) { StillUnbumped(w.consumers, k, x', i); }
    }
    if w.phase.Returned? {
      if w.emitted <= w.phase.hw { QuiescentScan(w, k, x'); }
    } else {
      PhaseKept(w, w', k, x');
    }
    if HasOutput(w) { StillHasOutput(w, w'); }
  }

  lemma QuiescentScan(w: World, k: nat, x: Consumer)
    requires Quiescent(w) && k < |w.consumers| && w.consumers[k].scanned < |w.log|
    requires !w.log[w.consumers[k].scanned] ==>
               var y := w.consumers[k];
               x == y.(handled := y.handled + {y.scanned}, scanned := y.scanned + 1)
    ensures Quiescent(w.(consumers := w.consumers[k := x]))
  {
  }

  /** What a step of consumer `k` on a trigger it holds owes the phase. */
  lemma HeldPhase(w: World, w': World, k: nat, t: nat, x: Consumer)
    requires PhaseOk(w) && Holds(w, k, t)
    requires w'.consumers == w.consumers[k := x] && w'.phase == w.phase && w'.emitted == w.emitted
    requires w.mark.Some? ==> w'.mark.Some?
    requires w.consumers[k].scanned == x.scanned && x.pending.Keys <= w.consumers[k].pending.Keys
    ensures PhaseOk(w')
  {
  }

  lemma OutputKeeps(c: Config, w: World, k: nat, t: nat)
    requires Inv(c, w) && Enabled(c, w, Output(k, t))
    ensures Inv(c, Do(c, w, Output(k, t)))
  {
    var w' := Do(c, w, Output(k, t));
    var x, x', last := w.consumers[k], w'.consumers[k], |w.log|;
    assert ConsumerOk(w.log, w.roots, x);
    LogGrows(w, true, w.roots);
    OutputConsumer(w.log, w.roots, x, t);
    SetConsumer(w.(log := w.log + [true]), k, x');
    OutputAccounted(w, w', k, t);
    HeldPhase(w, w', k, t, x');
    assert last < |w'.log| && w'.log[last] && last !in w'.roots;
  }

  lemma OutputAccounted(w: World, w': World, k: nat, t: nat)
    requires AllAccounted(w) && Holds(w, k, t) && w'.log == w.log + [true] && w'.roots == w.roots && w'.mark == w.mark
    requires var x := w.consumers[k];
             w'.consumers == w.consumers[k := x.(pending := x.pending[t := x.pending[t] + {|w.log|}])]
    ensures AllAccounted(w')
  {
    forall i: nat | i < |w'.log| && w'.log[i] ensures Accounted(w', i) {
      if i < |w.log| {
        assert Accounted(w, i);
        if Unbumped(w.consumers, i) { StillUnbumped(w.consumers, k, w'.consumers[k], i); }
      } else {
        assert UnbumpedBy(w'.consumers, k, t, i);
      }
    }
  }

  lemma OutputConsumer(log: seq<bool>, roots: set<nat>, x: Consumer, t: nat)
    requires ConsumerOk(log, roots, x) && t in x.pending && forall i | i in roots :: i < |log|
    ensures ConsumerOk(log + [true], roots, x.(pending := x.pending[t := x.pending[t] + {|log|}]))
  {
  }

  lemma BumpKeeps(c: Config, w: World, k: nat, t: nat, o: nat)
    requires Inv(c, w) && Enabled(c, w, Bump(k, t, o))
    ensures Inv(c, Do(c, w, Bump(k, t, o)))
  {
    var w' := Do(c, w, Bump(k, t, o));
    var x, x' := w.consumers[k], w'.consumers[k];
    assert ConsumerOk(w.log, w.roots, x) && OutputsOk(w.log, w.roots, t, x.pending[t]);
    BumpConsumer(w.log, w.roots, x, t, o);
    SetConsumer(w, k, x');
    BumpAccounted(w, w', k, t, o);
    HeldPhase(w, w', k, t, x');
    assert o < |w'.log| && w'.log[o] && o !in w'.roots;
  }

  lemma BumpAccounted(w: World, w': World, k: nat, t: nat, o: nat)
    requires AllAccounted(w) && Holds(w, k, t) && w'.log == w.log && w'.roots == w.roots
    requires w'.mark.Some? && o < w'.mark.value && (w.mark.Some? ==> w.mark.value <= w'.mark.value)
    requires var x := w.consumers[k];
             w'.consumers == w.consumers[k := x.(pending := x.pending[t := x.pending[t] - {o}])]
    ensures AllAccounted(w')
  {
    forall i: nat | i < |w'.log| && w'.log[i] ensures Accounted(w', i) {
      assert Accounted(w, i);
      if i != o && Unbumped(w.consumers, i) { StillUnbumped(w.consumers, k, w'.consumers[k], i); }
    }
  }

  lemma BumpConsumer(log: seq<bool>, roots: set<nat>, x: Consumer, t: nat, o: nat)
    requires ConsumerOk(log, roots, x) && t in x.pending
    ensures ConsumerOk(log, roots, x.(pending := x.pending[t := x.pending[t] - {o}]))
  {
  }

  lemma ClearKeeps(c: Config, w: World, k: nat, t: nat)
    requires Inv(c, w) && Enabled(c, w, Clear(k, t))
    ensures Inv(c, Do(c, w, Clear(k, t)))
  {
    var w' := Do(c, w, Clear(k, t));
    var x, x' := w.consumers[k], w'.consumers[k];
    assert ConsumerOk(w.log, w.roots, x);
    SetConsumer(w, k, x');
    forall i: nat | i < |w'.log| && w'.log[i] ensures Accounted(w', i) {
      assert Accounted(w, i);
      if Unbumped(w.consumers, i) { StillUnbumped(w.consumers, k, x', i); }
    }
    HeldPhase(w, w', k, t, x');
    if HasOutput(w) { StillHasOutput(w, w'); }
  }

  // ── The settle steps ──────────────────────────────────────────────

  ghost predicate AllProbed(w: World, hw: nat) {
    forall k: nat | k < |w.consumers| :: ProbedOk(w.consumers[k], hw)
  }

  /** With every consumer probed and every mark covered, nothing of the
      workflow lies past the high-water: the first event that did would have
      been appended by an earlier one that did. */
  lemma {:induction false} NothingPast(w: World, hw: nat, i: nat)
    requires ConsumersOk(w) && AllAccounted(w) && RootsOk(w) && AllProbed(w, hw)
    requires w.emitted <= hw && (w.mark.Some? ==> w.mark.value <= hw)
    requires i < |w.log| && w.log[i]
    ensures i < hw
    decreases i
  {
    assert Accounted(w, i);
    if Unbumped(w.consumers, i) {
      var k: nat, t: nat :| UnbumpedBy(w.consumers, k, t, i);
      UnbumpedTrigger(w, hw, k, t, i);
      NothingPast(w, hw, t);
    }
  }

  lemma UnbumpedTrigger(w: World, hw: nat, k: nat, t: nat, i: nat)
    requires ConsumersOk(w) && AllProbed(w, hw) && UnbumpedBy(w.consumers, k, t, i)
    ensures hw <= t < i && t < |w.log| && w.log[t]
  {
    var x := w.consumers[k];
    assert ConsumerOk(w.log, w.roots, x) && ProbedOk(x, hw) && OutputsOk(w.log, w.roots, t, x.pending[t]);
  }

  lemma ReturnsQuiescent(w: World, hw: nat)
    requires ConsumersOk(w) && AllAccounted(w) && RootsOk(w) && AllProbed(w, hw)
    requires w.emitted <= hw && (w.mark.Some? ==> w.mark.value <= hw)
    ensures Quiescent(w)
  {
    forall i: nat | i < |w.log| && w.log[i] ensures i < hw {
      NothingPast(w, hw, i);
    }
    forall k: nat | k < |w.consumers| ensures AllHandled(w, w.consumers[k]) {
      var x := w.consumers[k];
      assert ConsumerOk(w.log, w.roots, x) && ProbedOk(x, hw);
      assert x.pending.Keys == {};
    }
  }

  lemma SetPhase(w: World, phase: Phase)
    requires ConsumersOk(w) && AllAccounted(w) && RootsOk(w)
    ensures var w' := w.(phase := phase);
            ConsumersOk(w') && AllAccounted(w') && RootsOk(w') && (RootsFirst(w) ==> RootsFirst(w'))
  {
    var w' := w.(phase := phase);
    forall i: nat | i < |w'.log| && w'.log[i] ensures Accounted(w', i) {
      assert Accounted(w, i);
    }
    if HasOutput(w) { StillHasOutput(w, w'); }
  }

  lemma RereadKeeps(c: Config, w: World)
    requires Inv(c, w) && Enabled(c, w, Reread)
    ensures Inv(c, Do(c, w, Reread))
  {
    var w' := Do(c, w, Reread);
    SetPhase(w, w'.phase);
    if w'.phase.Returned? && w.emitted <= w.phase.hw { ReturnsQuiescent(w', w.phase.hw); }
  }

  lemma ProbeKeeps(c: Config, w: World)
    requires Inv(c, w) && Enabled(c, w, Probe)
    ensures Inv(c, Do(c, w, Probe))
  {
    var w' := Do(c, w, Probe);
    SetPhase(w, w'.phase);
    forall k: nat | k < w'.phase.next ensures ProbedOk(w'.consumers[k], w'.phase.hw) {
      assert k < w.phase.next ==> ProbedOk(w.consumers[k], w.phase.hw);
    }
  }

  lemma ReadKeeps(c: Config, w: World, step: Step)
    requires Inv(c, w) && Enabled(c, w, step) && (step.Begin? || step.ReadMark?)
    ensures Inv(c, Do(c, w, step))
  {
    SetPhase(w, Do(c, w, step).phase);
  }

  lemma StepKeeps(c: Config, w: World, step: Step)
    requires Inv(c, w) && Enabled(c, w, step)
    ensures Inv(c, Do(c, w, step))
  {
    match step {
      case Root => RootKeeps(c, w);
      case Other => OtherKeeps(c, w);
      case Scan(k, wants) => ScanKeeps(c, w, k, wants);
      case Output(k, t) => OutputKeeps(c, w, k, t);
      case Bump(k, t, o) => BumpKeeps(c, w, k, t, o);
      case Clear(k, t) => ClearKeeps(c, w, k, t);
      case Begin => ReadKeeps(c, w, step);
      case ReadMark => ReadKeeps(c, w, step);
      case Probe => ProbeKeeps(c, w);
      case Reread => RereadKeeps(c, w);
    }
  }

  lemma {:induction false} RunKeeps(c: Config, run: seq<Step>)
    ensures Inv(c, After(c, run))
  {
    if run != [] {
      RunKeeps(c, run[..|run| - 1]);
      var w, step := After(c, run[..|run| - 1]), run[|run| - 1];
      if Enabled(c, w, step) { StepKeeps(c, w, step); }
    }
  }

  /** When `settle` has returned on a mark that covers the emit, the workflow is
      quiescent, then and ever after, although earlier consumers were probed
      before later ones drained. */
  lemma SettledMeansQuiescent(c: Config, run: seq<Step>)
    requires var w := After(c, run); w.phase.Returned? && w.emitted <= w.phase.hw
    ensures Quiescent(After(c, run))
  {
    RunKeeps(c, run);
  }

  // ── Exactly when the mark covers the emit ─────────────────────────

  ghost predicate Sound(c: Config) {
    forall run :: After(c, run).phase.Returned? ==> Quiescent(After(c, run))
  }

  lemma {:induction false} Extend(c: Config, run: seq<Step>, step: Step)
    requires Enabled(c, After(c, run), step)
    ensures After(c, run + [step]) == Do(c, After(c, run), step)
  {
    assert (run + [step])[..|run + [step]| - 1] == run;
  }

  const FRESH := Consumer(0, map[], {})
  const CAUGHT_UP := Consumer(2, map[], {0, 1})

  /** The first `k` consumers have handled the first two events. */
  function CaughtUp(c: Config, k: nat): seq<Consumer> {
    seq(c.consumers, i => if i < k then CAUGHT_UP else FRESH)
  }

  /** One root and one output, with `x` for the first consumer. */
  function TwoEvents(c: Config, mark: Option<nat>, x: Consumer): World
    requires c.consumers > 0
  {
    World([true, true], {0}, 1, mark, CaughtUp(c, 0)[0 := x], Emitting)
  }

  /** A reaction to the first run of a two-run emit bumps the mark below the
      second run: whatever the number of consumers, `settle` returns with the
      second root unseen by any. */
  lemma {:induction false} TwoRunEmitReturnsEarly(c: Config) returns (run: seq<Step>)
    requires c.consumers > 0 && !c.oneRun && !c.floored
    ensures After(c, run).phase.Returned? && !Quiescent(After(c, run))
  {
    run := FirstRunHandled(c);
    run := OthersCatchUp(c, run, 1);
    Extend(c, run, Root);
    run := run + [Root];
    Extend(c, run, Begin);
    run := run + [Begin];
    Extend(c, run, ReadMark);
    run := run + [ReadMark];
    run := AllDrained(c, run, 0);
    Extend(c, run, Reread);
    run := run + [Reread];
    var w := After(c, run);
    assert w.log[2] && w.consumers[0].scanned == 2;
    assert !AllHandled(w, w.consumers[0]);
  }

  /** The other consumers scan the two events and want neither. */
  lemma {:induction false} OthersCatchUp(c: Config, past: seq<Step>, k: nat) returns (run: seq<Step>)
    requires 0 < k <= c.consumers
    requires After(c, past) == World([true, true], {0}, 1, Some(2), CaughtUp(c, k), Emitting)
    ensures After(c, run) == World([true, true], {0}, 1, Some(2), CaughtUp(c, c.consumers), Emitting)
    decreases c.consumers - k
  {
    run := past;
    if k < c.consumers {
      ScanOn(c, run, k, FRESH);
      run := run + [Scan(k, false)];
      ScanOn(c, run, k, Consumer(1, map[], {0}));
      run := run + [Scan(k, false)];
      assert {0} + {1} == {0, 1};
      assert CaughtUp(c, k)[k := Consumer(1, map[], {0})][k := CAUGHT_UP] == CaughtUp(c, k + 1);
      run := OthersCatchUp(c, run, k + 1);
    }
  }

  /** A consumer scans one more event and does not want it. */
  lemma {:induction false} ScanOn(c: Config, past: seq<Step>, k: nat, x: Consumer)
    requires var w := After(c, past); k < |w.consumers| && w.consumers[k] == x && x.scanned < |w.log|
    ensures var w := After(c, past);
            var x' := Consumer(x.scanned + 1, x.pending, x.handled + {x.scanned});
            After(c, past + [Scan(k, false)]) == w.(consumers := w.consumers[k := x'])
  {
    Extend(c, past, Scan(k, false));
  }

  /** `settle` finds every consumer drained at the low mark. */
  lemma {:induction false} AllDrained(c: Config, past: seq<Step>, next: nat) returns (run: seq<Step>)
    requires next <= c.consumers
    requires After(c, past)
          == World([true, true, true], {0, 2}, 3, Some(2), CaughtUp(c, c.consumers), Probing(2, next))
    ensures After(c, run)
         == World([true, true, true], {0, 2}, 3, Some(2), CaughtUp(c, c.consumers), Probing(2, c.consumers))
    decreases c.consumers - next
  {
    run := past;
    if next < c.consumers {
      Extend(c, run, Probe);
      run := AllDrained(c, run + [Probe], next + 1);
    }
  }

  /** The first root is handled, its output bumped, cleared and scanned. */
  lemma {:induction false} FirstRunHandled(c: Config) returns (run: seq<Step>)
    requires c.consumers > 0 && !c.oneRun
    ensures After(c, run) == World([true, true], {0}, 1, Some(2), CaughtUp(c, 1), Emitting)
  {
    run := [];
    assert Start(c).consumers == CaughtUp(c, 0);
    Extend(c, run, Root);
    run := run + [Root];
    Extend(c, run, Scan(0, true));
    run := run + [Scan(0, true)];
    assert After(c, run).consumers == CaughtUp(c, 0)[0 := Consumer(1, map[0 := {}], {})];
    Extend(c, run, Output(0, 0));
    run := run + [Output(0, 0)];
    assert After(c, run).consumers[0].pending[0] == {1} && After(c, run).consumers[0].pending == map[0 := {1}];
    assert After(c, run).consumers == CaughtUp(c, 0)[0 := Consumer(1, map[0 := {1}], {})];
    run := OutputHandled(c, run);
    assert CaughtUp(c, 0)[0 := CAUGHT_UP] == CaughtUp(c, 1);
  }

  lemma {:induction false} OutputHandled(c: Config, past: seq<Step>) returns (run: seq<Step>)
    requires c.consumers > 0 && After(c, past) == TwoEvents(c, None, Consumer(1, map[0 := {1}], {}))
    ensures After(c, run) == TwoEvents(c, Some(2), CAUGHT_UP)
  {
    Extend(c, past, Bump(0, 0, 1));
    run := past + [Bump(0, 0, 1)];
    assert After(c, run).consumers[0].pending[0] == {} && After(c, run).consumers[0].pending == map[0 := {}];
    assert After(c, run).consumers == CaughtUp(c, 0)[0 := Consumer(1, map[0 := {}], {})];
    run := TriggerCleared(c, run);
  }

  lemma {:induction false} TriggerCleared(c: Config, past: seq<Step>) returns (run: seq<Step>)
    requires c.consumers > 0 && After(c, past) == TwoEvents(c, Some(2), Consumer(1, map[0 := {}], {}))
    ensures After(c, run) == TwoEvents(c, Some(2), CAUGHT_UP)
  {
    Extend(c, past, Clear(0, 0));
    run := past + [Clear(0, 0)];
    assert After(c, run).consumers[0].handled == {0};
    assert After(c, run).consumers == CaughtUp(c, 0)[0 := Consumer(1, map[], {0})];
    Extend(c, run, Scan(0, false));
    run := run + [Scan(0, false)];
    assert After(c, run).consumers[0].handled == {0, 1};
    assert After(c, run).consumers == CaughtUp(c, 0)[0 := CAUGHT_UP];
  }

  /** `settle` is sound in every run exactly when the emit is one run — or when
      the mark is floored at the emit's position, as its documentation says and
      its code does not — or when there is no consumer, and so nothing to wait
      for. */
  lemma {:induction false} SettleIsSoundExactly(c: Config)
    ensures Sound(c) <==> c.oneRun || c.floored || c.consumers == 0
  {
    if c.oneRun || c.floored {
      forall run | After(c, run).phase.Returned? ensures Quiescent(After(c, run)) {
        OneRunEmitsSettle(c, run);
      }
    } else if c.consumers == 0 {
      forall run | After(c, run).phase.Returned? ensures Quiescent(After(c, run)) {
        SameConsumers(c, run);
      }
    } else {
      var run := TwoRunEmitReturnsEarly(c);
      assert After(c, run).phase.Returned? && !Quiescent(After(c, run));
    }
  }

  lemma {:induction false} SameConsumers(c: Config, run: seq<Step>)
    ensures |After(c, run).consumers| == c.consumers
  {
    if run != [] { SameConsumers(c, run[..|run| - 1]); }
  }

  /** The sound half, run by run. */
  lemma OneRunEmitsSettle(c: Config, run: seq<Step>)
    requires c.oneRun || c.floored
    requires After(c, run).phase.Returned?
    ensures Quiescent(After(c, run))
  {
    RunKeeps(c, run);
  }
}
