/** `Engine::append` under contention: any number of callers run optimistic
    decisions against one aggregate stream while anyone else appends to any
    stream. Each load and each backend append is one atomic step. */
module OccAppend {
  import opened JsonValue
  import opened EventLog
  import opened LogStore
  import opened Folding

  /** A fact a decision emits, before it gets its envelope. */
  datatype Draft = Draft(kind: string, payload: Payload, subject: Uuid)

  datatype Decision = Refused | Facts(drafts: seq<Draft>)

  /** The stream, the folded kind, the aggregate, and each caller's `decide`. */
  datatype Command = Command(
    stream: StreamId,
    kind: string,
    initial: State,
    apply: (State, Payload) -> State,
    decides: seq<State -> Decision>)

  /** What the runtime stamps on a decision: fresh ids, a workflow, a time. */
  datatype Stamp = Stamp(ids: nat -> Uuid, workflow: Uuid, now: nat)

  const MAX_OCC_RETRIES := 16

  /** The fold a decision sees: the stream's facts of the folded kind. */
  function FFold(c: Command, h: seq<Event>): State {
    if h == [] then c.initial
    else
      var s, e := FFold(c, h[..|h| - 1]), h[|h| - 1];
      if e.kind == c.kind then c.apply(s, e.payload) else s
  }

  function Head(n: nat): StreamState {
    if n == 0 then NoStream else AtRevision(n - 1)
  }

  function Envelope(c: Command, d: Draft, stamp: Stamp, i: nat): EventData {
    EventData(stamp.ids(i), None, stamp.workflow, d.kind, d.payload, stamp.now,
              Some(c.stream.category), Some(c.stream.subject), map[], None, true)
  }

  function Batch(c: Command, drafts: seq<Draft>, stamp: Stamp): seq<EventData> {
    seq(|drafts|, i requires 0 <= i < |drafts| => Envelope(c, drafts[i], stamp, i))
  }

  /** Every fact belongs to the commanded aggregate. */
  predicate OwnFacts(c: Command, drafts: seq<Draft>) {
    forall d | d in drafts :: d.subject == c.stream.subject
  }

  // ── The machine ───────────────────────────────────────────────────

  datatype Phase =
    | Ready(attempt: nat)
    | Loaded(attempt: nat, at: nat, drafts: seq<Draft>, stamp: Stamp)
    | Committed(at: nat, drafts: seq<Draft>)
    | Nothing
    | Failed

  /** `origin[i]` is the caller that wrote `log[i]`, if one of them did. */
  datatype World = World(log: Log, origin: seq<Option<nat>>, callers: seq<Phase>)

  datatype Step =
    | Load(i: nat, stamp: Stamp)
    | Commit(i: nat)
    | Foreign(stream: StreamId, expected: StreamState, batch: seq<EventData>)

  /** The ids generated for the batch are new. */
  predicate FreshlyStamped(c: Command, log: Log, x: Phase)
    requires x.Loaded?
  {
    DistinctIds(Batch(c, x.drafts, x.stamp)) && FreshIds(log, Batch(c, x.drafts, x.stamp))
  }

  predicate Enabled(c: Command, w: World, step: Step) {
    match step
    case Load(i, _) => i < |w.callers| && i < |c.decides| && w.callers[i].Ready?
    case Commit(i) => i < |w.callers| && w.callers[i].Loaded? && FreshlyStamped(c, w.log, w.callers[i])
    case Foreign(_, _, _) => true
  }

  /** What a load and its decision lead to. */
  function Decided(c: Command, log: Log, i: nat, attempt: nat, stamp: Stamp): Phase
    requires i < |c.decides|
  {
    var h := Stream(log, c.stream);
    match c.decides[i](FFold(c, h))
    case Refused => Failed
    case Facts(drafts) =>
      if drafts == [] then Nothing
      else if !OwnFacts(c, drafts) then Failed
      else Loaded(attempt, |h|, drafts, stamp)
  }

  /** One conditional append and what it makes of the caller. */
  function Submit(c: Command, log: Log, x: Phase): (Log, Phase)
    requires x.Loaded?
  {
    var (log', r) := Append(log, c.stream, Head(x.at), Batch(c, x.drafts, x.stamp));
    match r
    case Written(_, _) => (log', Committed(x.at, x.drafts))
    case Conflict(_) => (log', if x.attempt + 1 < MAX_OCC_RETRIES then Ready(x.attempt + 1) else Failed)
    case Rejected => (log', Failed)
  }

  function Tagged(origin: seq<Option<nat>>, log: Log, writer: Option<nat>): seq<Option<nat>>
    requires |origin| <= |log|
  {
    origin + seq(|log| - |origin|, _ => writer)
  }

  function Do(c: Command, w: World, step: Step): World
    requires Enabled(c, w, step)
  {
    match step
    case Load(i, stamp) => w.(callers := w.callers[i := Decided(c, w.log, i, w.callers[i].attempt, stamp)])
    case Commit(i) =>
      var (log', phase) := Submit(c, w.log, w.callers[i]);
      World(log', if |w.origin| <= |log'| then Tagged(w.origin, log', Some(i)) else w.origin, w.callers[i := phase])
    case Foreign(s, expected, batch) =>
      var log' := Append(w.log, s, expected, batch).0;
      w.(log := log', origin := if |w.origin| <= |log'| then Tagged(w.origin, log', None) else w.origin)
  }

  function Start(c: Command, log: Log): World {
    World(log, seq(|log|, _ => None), seq(|c.decides|, _ => Ready(0)))
  }

  function After(c: Command, log: Log, run: seq<Step>): World {
    if run == [] then Start(c, log)
    else
      var w := After(c, log, run[..|run| - 1]);
      if Enabled(c, w, run[|run| - 1]) then Do(c, w, run[|run| - 1]) else w
  }

  // ── Serializability ───────────────────────────────────────────────

  /** The decision is `decide` of the fold of the prefix before `at`. */
  ghost predicate DecidedAt(c: Command, log: Log, i: nat, at: nat, drafts: seq<Draft>) {
    var h := Stream(log, c.stream);
    && i < |c.decides| && at <= |h|
    && c.decides[i](FFold(c, h[..at])) == Facts(drafts)
    && drafts != [] && OwnFacts(c, drafts)
  }

  /** The facts lie contiguously from `at`. */
  ghost predicate LandedAt(c: Command, log: Log, at: nat, drafts: seq<Draft>) {
    var h := Stream(log, c.stream);
    && at + |drafts| <= |h|
    && forall k | 0 <= k < |drafts| :: h[at + k].kind == drafts[k].kind && h[at + k].payload == drafts[k].payload
  }

  ghost predicate CallerOk(c: Command, log: Log, i: nat, x: Phase) {
    match x
    case Ready(attempt) => attempt < MAX_OCC_RETRIES
    case Loaded(attempt, at, drafts, _) => attempt < MAX_OCC_RETRIES && DecidedAt(c, log, i, at, drafts)
    case Committed(at, drafts) => DecidedAt(c, log, i, at, drafts) && LandedAt(c, log, at, drafts)
    case _ => true
  }

  ghost predicate CallersOk(c: Command, log: Log, callers: seq<Phase>) {
    forall i: nat {:trigger callers[i]} | i < |callers| :: CallerOk(c, log, i, callers[i])
  }

  ghost predicate Inv(c: Command, w: World) {
    && WellFormed(w.log) && |w.origin| == |w.log| && |w.callers| == |c.decides|
    && CallersOk(c, w.log, w.callers) && OriginsOk(w.origin, w.callers)
  }

  lemma CallerStable(c: Command, log: Log, log': Log, i: nat, x: Phase)
    requires log <= log' && CallerOk(c, log, i, x)
    ensures CallerOk(c, log', i, x)
  {
    StreamGrows(log, log', c.stream);
    if x.Loaded? || x.Committed? {
      assert Stream(log', c.stream)[..x.at] == Stream(log, c.stream)[..x.at];
    }
  }

  /** A conditional append that succeeds lands exactly on the prefix it was
      decided from, as one contiguous stretch. */
  lemma CommitLands(c: Command, log: Log, i: nat, at: nat, drafts: seq<Draft>, stamp: Stamp)
    requires WellFormed(log) && DecidedAt(c, log, i, at, drafts)
    requires DistinctIds(Batch(c, drafts, stamp)) && FreshIds(log, Batch(c, drafts, stamp))
    ensures var (log', r) := Append(log, c.stream, Head(at), Batch(c, drafts, stamp));
            if |Stream(log, c.stream)| == at then
              && r.Written? && r.revision == at + |drafts| - 1
              && DecidedAt(c, log', i, at, drafts) && LandedAt(c, log', at, drafts)
            else r.Conflict? && log' == log
  {
    var batch := Batch(c, drafts, stamp);
    FreshAppend(log, c.stream, Head(at), batch);
    if |Stream(log, c.stream)| == at { LandsOnPrefix(c, log, i, at, drafts, stamp); }
  }

  lemma {:induction false} LandsOnPrefix(c: Command, log: Log, i: nat, at: nat, drafts: seq<Draft>, stamp: Stamp)
    requires DecidedAt(c, log, i, at, drafts) && |Stream(log, c.stream)| == at
    ensures var log' := log + Records(log, c.stream, Batch(c, drafts, stamp));
            DecidedAt(c, log', i, at, drafts) && LandedAt(c, log', at, drafts)
  {
    var h, rs := Stream(log, c.stream), Records(log, c.stream, Batch(c, drafts, stamp));
    AppendKeepsStreams(log, c.stream, Batch(c, drafts, stamp), c.stream);
    BatchIsRecorded(c, log, drafts, stamp);
    LandsAtEnd(c, log, log + rs, i, h, rs, drafts);
  }

  lemma {:induction false} BatchIsRecorded(c: Command, log: Log, drafts: seq<Draft>, stamp: Stamp)
    ensures var rs := Records(log, c.stream, Batch(c, drafts, stamp));
            |rs| == |drafts|
            && forall k | 0 <= k < |drafts| :: rs[k].kind == drafts[k].kind && rs[k].payload == drafts[k].payload
  {
  }

  lemma {:induction false} LandsAtEnd(c: Command, log: Log, log': Log, i: nat, h: seq<Event>, rs: seq<Event>,
      drafts: seq<Draft>)
    requires h == Stream(log, c.stream) && Stream(log', c.stream) == h + rs && DecidedAt(c, log, i, |h|, drafts)
    requires |rs| == |drafts|
    requires forall k | 0 <= k < |drafts| :: rs[k].kind == drafts[k].kind && rs[k].payload == drafts[k].payload
    ensures DecidedAt(c, log', i, |h|, drafts) && LandedAt(c, log', |h|, drafts)
  {
    assert (h + rs)[..|h|] == h == h[..|h|];
  }

  /** What a submit leaves: the log grows only if the caller committed. */
  lemma {:induction false} Submitted(c: Command, log: Log, i: nat, x: Phase)
    requires WellFormed(log) && x.Loaded? && CallerOk(c, log, i, x) && FreshlyStamped(c, log, x)
    ensures var (log', phase) := Submit(c, log, x);
            WellFormed(log') && log <= log' && CallerOk(c, log', i, phase) && (phase.Committed? || log' == log)
  {
    CommitLands(c, log, i, x.at, x.drafts, x.stamp);
    AppendKeepsLog(log, c.stream, Head(x.at), Batch(c, x.drafts, x.stamp));
  }

  lemma {:induction false} CommitKeeps(c: Command, w: World, i: nat)
    requires Inv(c, w) && Enabled(c, w, Commit(i))
    ensures Inv(c, Do(c, w, Commit(i))) && w.log <= Do(c, w, Commit(i)).log
  {
    assert CallerOk(c, w.log, i, w.callers[i]);
    Submitted(c, w.log, i, w.callers[i]);
    var (log', phase) := Submit(c, w.log, w.callers[i]);
    OneCallerMoves(c, w.log, log', w.callers, i, phase);
    OriginsStay(w, i, log', phase);
    assert Do(c, w, Commit(i)) == World(log', Tagged(w.origin, log', Some(i)), w.callers[i := phase]);
  }

  /** Whoever wrote a fact has committed. */
  ghost predicate OriginsOk(origin: seq<Option<nat>>, callers: seq<Phase>) {
    forall k | 0 <= k < |origin| && origin[k].Some? ::
      origin[k].value < |callers| && callers[origin[k].value].Committed?
  }

  lemma {:induction false} OriginsStay(w: World, i: nat, log': Log, phase: Phase)
    requires OriginsOk(w.origin, w.callers) && |w.origin| == |w.log| <= |log'|
    requires i < |w.callers| && w.callers[i].Loaded? && (phase.Committed? || log' == w.log)
    ensures OriginsOk(Tagged(w.origin, log', Some(i)), w.callers[i := phase])
  {
  }

  lemma OneCallerMoves(c: Command, log: Log, log': Log, callers: seq<Phase>, i: nat, y: Phase)
    requires log <= log' && i < |callers| && CallerOk(c, log', i, y) && CallersOk(c, log, callers)
    ensures CallersOk(c, log', callers[i := y])
  {
    var moved := callers[i := y];
    forall j: nat | j < |moved| ensures CallerOk(c, log', j, moved[j]) {
      if j != i { CallerStable(c, log, log', j, callers[j]); }
    }
  }

  lemma ForeignKeeps(c: Command, w: World, s: StreamId, expected: StreamState, batch: seq<EventData>)
    requires Inv(c, w)
    ensures var w' := Do(c, w, Foreign(s, expected, batch)); Inv(c, w') && w.log <= w'.log
  {
    var w' := Do(c, w, Foreign(s, expected, batch));
    AppendKeepsLog(w.log, s, expected, batch);
    forall j: nat | j < |w'.callers| ensures CallerOk(c, w'.log, j, w'.callers[j]) {
      CallerStable(c, w.log, w'.log, j, w.callers[j]);
    }
  }

  lemma LoadKeeps(c: Command, w: World, i: nat, stamp: Stamp)
    requires Inv(c, w) && Enabled(c, w, Load(i, stamp))
    ensures Inv(c, Do(c, w, Load(i, stamp)))
  {
    var h := Stream(w.log, c.stream);
    assert h[..|h|] == h;
    assert CallerOk(c, w.log, i, w.callers[i]);
  }

  lemma StepKeeps(c: Command, w: World, step: Step)
    requires Inv(c, w) && Enabled(c, w, step)
    ensures Inv(c, Do(c, w, step)) && w.log <= Do(c, w, step).log
  {
    match step {
      case Load(i, stamp) => LoadKeeps(c, w, i, stamp);
      case Commit(i) => CommitKeeps(c, w, i);
      case Foreign(s, expected, batch) => ForeignKeeps(c, w, s, expected, batch);
    }
  }

  /** Serializability, in every reachable world: each committed decision is
      `decide` of the fold of exactly the prefix it landed after, its facts lie
      contiguously there, and whatever callers wrote was written by a committed
      one — a refused, failed or exhausted call added nothing. */
  lemma {:induction false} AppendsAreSerializable(c: Command, log: Log, run: seq<Step>)
    requires WellFormed(log)
    ensures var w := After(c, log, run);
            && Inv(c, w)
            && (forall i: nat | i < |w.callers| && w.callers[i].Committed? ::
                  DecidedAt(c, w.log, i, w.callers[i].at, w.callers[i].drafts)
                  && LandedAt(c, w.log, w.callers[i].at, w.callers[i].drafts))
            && (forall i: nat, k | i < |w.callers| && w.callers[i].Failed? && 0 <= k < |w.origin| ::
                  w.origin[k] != Some(i))
  {
    if run != [] {
      AppendsAreSerializable(c, log, run[..|run| - 1]);
      var w, step := After(c, log, run[..|run| - 1]), run[|run| - 1];
      if Enabled(c, w, step) { StepKeeps(c, w, step); }
    }
    var w := After(c, log, run);
    forall i: nat | i < |w.callers| && w.callers[i].Committed?
      ensures DecidedAt(c, w.log, i, w.callers[i].at, w.callers[i].drafts)
              && LandedAt(c, w.log, w.callers[i].at, w.callers[i].drafts)
    {
      assert CallerOk(c, w.log, i, w.callers[i]);
    }
  }

  // ── Invariants of the aggregate ───────────────────────────────────

  function DraftFold(c: Command, s: State, drafts: seq<Draft>): State
    decreases |drafts|
  {
    if drafts == [] then s
    else
      var s', d := DraftFold(c, s, drafts[..|drafts| - 1]), drafts[|drafts| - 1];
      if d.kind == c.kind then c.apply(s', d.payload) else s'
  }

  /** No decision takes the aggregate out of `good`. */
  ghost predicate Preserves(c: Command, good: State -> bool) {
    && good(c.initial)
    && forall i: nat, s: State | i < |c.decides| && good(s) && c.decides[i](s).Facts? ::
         good(DraftFold(c, s, c.decides[i](s).drafts))
  }

  /** Nobody else writes facts of the folded kind to the stream. */
  ghost predicate OnlyWriter(c: Command, run: seq<Step>) {
    forall step | step in run && step.Foreign? && step.stream == c.stream ::
      forall d | d in step.batch :: d.kind != c.kind
  }

  lemma {:induction false} FoldOfFacts(c: Command, h: seq<Event>, more: seq<Event>, drafts: seq<Draft>)
    requires |more| == |drafts|
    requires forall k | 0 <= k < |more| :: more[k].kind == drafts[k].kind && more[k].payload == drafts[k].payload
    ensures FFold(c, h + more) == DraftFold(c, FFold(c, h), drafts)
    decreases |more|
  {
    if more == [] {
      assert h + more == h;
    } else {
      assert (h + more)[..|h + more| - 1] == h + more[..|more| - 1];
      FoldOfFacts(c, h, more[..|more| - 1], drafts[..|drafts| - 1]);
    }
  }

  lemma {:induction false} FoldOfForeign(c: Command, h: seq<Event>, more: seq<Event>)
    requires forall k | 0 <= k < |more| :: more[k].kind != c.kind
    ensures FFold(c, h + more) == FFold(c, h)
    decreases |more|
  {
    if more == [] {
      assert h + more == h;
    } else {
      assert (h + more)[..|h + more| - 1] == h + more[..|more| - 1];
      FoldOfForeign(c, h, more[..|more| - 1]);
    }
  }

  lemma DecisionStaysGood(c: Command, i: nat, s: State, drafts: seq<Draft>, good: State -> bool)
    requires Preserves(c, good) && i < |c.decides| && good(s) && c.decides[i](s) == Facts(drafts)
    ensures good(DraftFold(c, s, drafts))
  {
  }

  lemma CommitStaysGood(c: Command, w: World, i: nat, good: State -> bool)
    requires Inv(c, w) && Enabled(c, w, Commit(i)) && Preserves(c, good)
    requires good(FFold(c, Stream(w.log, c.stream)))
    ensures good(FFold(c, Stream(Do(c, w, Commit(i)).log, c.stream)))
  {
    var x := w.callers[i];
    assert CallerOk(c, w.log, i, x);
    CommitLands(c, w.log, i, x.at, x.drafts, x.stamp);
    if |Stream(w.log, c.stream)| == x.at {
      FreshAppend(w.log, c.stream, Head(x.at), Batch(c, x.drafts, x.stamp));
      LandedStaysGood(c, w.log, i, x.at, x.drafts, x.stamp, good);
    }
  }

  lemma LandedStaysGood(c: Command, log: Log, i: nat, at: nat, drafts: seq<Draft>, stamp: Stamp, good: State -> bool)
    requires DecidedAt(c, log, i, at, drafts) && |Stream(log, c.stream)| == at
    requires Preserves(c, good) && good(FFold(c, Stream(log, c.stream)))
    ensures good(FFold(c, Stream(log + Records(log, c.stream, Batch(c, drafts, stamp)), c.stream)))
  {
    var h, rs := Stream(log, c.stream), Records(log, c.stream, Batch(c, drafts, stamp));
    assert h[..at] == h;
    DecisionStaysGood(c, i, FFold(c, h), drafts, good);
    LandedFold(c, log, drafts, stamp);
  }

  lemma LandedFold(c: Command, log: Log, drafts: seq<Draft>, stamp: Stamp)
    ensures var h := Stream(log, c.stream);
            FFold(c, Stream(log + Records(log, c.stream, Batch(c, drafts, stamp)), c.stream))
            == DraftFold(c, FFold(c, h), drafts)
  {
    var batch := Batch(c, drafts, stamp);
    AppendKeepsStreams(log, c.stream, batch, c.stream);
    FoldOfFacts(c, Stream(log, c.stream), Records(log, c.stream, batch), drafts);
  }

  lemma ForeignStaysGood(c: Command, w: World, step: Step, good: State -> bool)
    requires step.Foreign? && OnlyWriter(c, [step]) && good(FFold(c, Stream(w.log, c.stream)))
    ensures good(FFold(c, Stream(Do(c, w, step).log, c.stream)))
  {
    assert step in [step];
    AppendShape(w.log, step.stream, step.expected, step.batch);
    AppendKeepsStreams(w.log, step.stream, step.batch, c.stream);
    if step.stream == c.stream {
      var rs := Records(w.log, step.stream, step.batch);
      forall k | 0 <= k < |rs| ensures rs[k].kind != c.kind {
        assert step.batch[k] in step.batch;
      }
      FoldOfForeign(c, Stream(w.log, c.stream), rs);
    } else {
      assert Stream(w.log, c.stream) + [] == Stream(w.log, c.stream);
    }
  }

  /** What decisions preserve holds of the aggregate in every reachable log —
      so before and after every decision — when they are its only writers. */
  lemma {:induction false} InvariantHoldsAtEveryBoundary(c: Command, log: Log, run: seq<Step>, good: State -> bool)
    requires WellFormed(log) && Preserves(c, good) && OnlyWriter(c, run)
    requires good(FFold(c, Stream(log, c.stream)))
    ensures good(FFold(c, Stream(After(c, log, run).log, c.stream)))
  {
    if run != [] {
      var front, step := run[..|run| - 1], run[|run| - 1];
      InvariantHoldsAtEveryBoundary(c, log, front, good);
      AppendsAreSerializable(c, log, front);
      var w := After(c, log, front);
      if Enabled(c, w, step) {
        match step {
          case Load(_, _) =>
          case Commit(i) => CommitStaysGood(c, w, i, good);
          case Foreign(_, _, _) =>
            assert step in run;
            ForeignStaysGood(c, w, step, good);
        }
      }
    }
  }

  // ── The call itself ───────────────────────────────────────────────

  /** One caller; its two methods are the machine's two atomic steps. */
  class Caller {
    var phase: Phase

    constructor ()
      ensures phase == Ready(0)
    {
      phase := Ready(0);
    }

    /** Read the stream, fold it, decide. */
    method Load(log: MemoryLog, c: Command, i: nat, stamp: Stamp)
      requires i < |c.decides| && phase.Ready?
      modifies this
      ensures phase == Decided(c, log.events, i, old(phase.attempt), stamp)
    {
      var h := log.ReadStream(c.stream, None);
      assert h == Stream(log.events, c.stream);
      var agg := c.initial;
      var k := 0;
      while k < |h|
        invariant k <= |h| && agg == FFold(c, h[..k]) && phase == old(phase)
      {
        assert h[..k + 1][..k] == h[..k];
        if h[k].kind == c.kind { agg := c.apply(agg, h[k].payload); }
        k := k + 1;
      }
      assert h[..k] == h;
      match c.decides[i](agg) {
        case Refused => phase := Failed;
        case Facts(drafts) =>
          phase := if drafts == [] then Nothing
                   else if !OwnFacts(c, drafts) then Failed
                   else Loaded(phase.attempt, |h|, drafts, stamp);
      }
    }

    /** Append at the expected head. */
    method Commit(log: MemoryLog, c: Command)
      requires phase.Loaded?
      modifies this, log
      ensures (log.events, phase) == Submit(c, old(log.events), old(phase))
    {
      var r := log.AppendToStream(c.stream, Head(phase.at), Batch(c, phase.drafts, phase.stamp));
      match r {
        case Written(_, _) => phase := Committed(phase.at, phase.drafts);
        case Conflict(_) => phase := if phase.attempt + 1 < MAX_OCC_RETRIES then Ready(phase.attempt + 1) else Failed;
        case Rejected => phase := Failed;
      }
    }
  }

  /** An append by somebody else. */
  datatype Rival = Rival(stream: StreamId, expected: StreamState, batch: seq<EventData>)

  function Meddle(log: Log, rivals: seq<Rival>): Log
    decreases |rivals|
  {
    if rivals == [] then log
    else Meddle(Append(log, rivals[0].stream, rivals[0].expected, rivals[0].batch).0, rivals[1..])
  }

  /** One attempt: load, rivals' appends, and the commit if one is due. */
  function Attempt(c: Command, i: nat, log: Log, attempt: nat, stamp: Stamp, rivals: seq<Rival>): (Log, Phase)
    requires i < |c.decides|
  {
    var x := Decided(c, log, i, attempt, stamp);
    if x.Loaded? then Submit(c, Meddle(log, rivals), x) else (log, x)
  }

  lemma RetryCounts(c: Command, i: nat, log: Log, attempt: nat, stamp: Stamp, rivals: seq<Rival>)
    requires i < |c.decides| && Attempt(c, i, log, attempt, stamp, rivals).1.Ready?
    ensures Decided(c, log, i, attempt, stamp).Loaded?
    ensures Attempt(c, i, log, attempt, stamp, rivals).1 == Ready(attempt + 1) && attempt + 1 < MAX_OCC_RETRIES
  {
  }

  /** A whole call from its `attempt`th load on: `rivals[k]` append between the
      load and the commit of attempt `k`. */
  function Call(c: Command, i: nat, log: Log, attempt: nat, stamps: seq<Stamp>, rivals: seq<seq<Rival>>): (Log, Phase)
    requires i < |c.decides| && attempt <= |stamps| <= |rivals|
    decreases |stamps| - attempt
  {
    if attempt == |stamps| then (log, Failed)
    else
      var (log', x) := Attempt(c, i, log, attempt, stamps[attempt], rivals[attempt]);
      if x.Ready? then Call(c, i, log', attempt + 1, stamps, rivals) else (log', x)
  }

  method Interfere(log: MemoryLog, rivals: seq<Rival>)
    modifies log
    ensures log.events == Meddle(old(log.events), rivals)
  {
    var k := 0;
    while k < |rivals|
      invariant k <= |rivals|
      invariant Meddle(log.events, rivals[k..]) == Meddle(old(log.events), rivals)
    {
      assert rivals[k..][1..] == rivals[k + 1..];
      var r := log.AppendToStream(rivals[k].stream, rivals[k].expected, rivals[k].batch);
      k := k + 1;
    }
  }

  /** `append`: load, decide, append; reload and decide again on a conflict. */
  method AppendDecision(log: MemoryLog, c: Command, i: nat, stamps: seq<Stamp>,
      rivals: seq<seq<Rival>>) returns (r: Phase)
    requires i < |c.decides| && |stamps| <= |rivals|
    modifies log
    ensures (log.events, r) == Call(c, i, old(log.events), 0, stamps, rivals)
  {
    var caller := new Caller();
    var attempt := 0;
    while attempt < |stamps|
      invariant attempt <= |stamps| && caller.phase.Ready? && fresh(caller)
      invariant caller.phase == Ready(attempt)
      invariant Call(c, i, log.events, attempt, stamps, rivals) == Call(c, i, old(log.events), 0, stamps, rivals)
    {
      caller.Load(log, c, i, stamps[attempt]);
      if !caller.phase.Loaded? { return caller.phase; }
      Interfere(log, rivals[attempt]);
      caller.Commit(log, c);
      if !caller.phase.Ready? { return caller.phase; }
      attempt := attempt + 1;
    }
    r := Failed;
  }

  // ── A call is a run of the machine ────────────────────────────────

  lemma Extend(c: Command, log: Log, run: seq<Step>, step: Step)
    requires Enabled(c, After(c, log, run), step)
    ensures After(c, log, run + [step]) == Do(c, After(c, log, run), step)
  {
  }

  lemma {:induction false} MeddleIsARun(c: Command, start: Log, past: seq<Step>,
      rivals: seq<Rival>) returns (run: seq<Step>)
    ensures After(c, start, run).log == Meddle(After(c, start, past).log, rivals)
    ensures After(c, start, run).callers == After(c, start, past).callers
    decreases |rivals|
  {
    run := past;
    if rivals != [] {
      var step := Foreign(rivals[0].stream, rivals[0].expected, rivals[0].batch);
      Extend(c, start, past, step);
      run := MeddleIsARun(c, start, past + [step], rivals[1..]);
    }
  }

  /** Each attempt's ids are new when it commits. */
  ghost predicate CallFresh(c: Command, i: nat, log: Log, attempt: nat, stamps: seq<Stamp>, rivals: seq<seq<Rival>>)
    requires i < |c.decides| && attempt <= |stamps| <= |rivals|
    decreases |stamps| - attempt
  {
    attempt < |stamps| ==>
      var x := Decided(c, log, i, attempt, stamps[attempt]);
      x.Loaded? ==>
        && FreshlyStamped(c, Meddle(log, rivals[attempt]), x)
        && CallFresh(c, i, Attempt(c, i, log, attempt, stamps[attempt], rivals[attempt]).0, attempt + 1, stamps, rivals)
  }

  /** One attempt: a load, the rivals' appends, and the commit if one is due. */
  lemma AttemptIsARun(c: Command, i: nat, start: Log, past: seq<Step>, stamp: Stamp,
      rivals: seq<Rival>) returns (run: seq<Step>)
    requires var w := After(c, start, past); i < |c.decides| && i < |w.callers| && w.callers[i].Ready?
    requires var w := After(c, start, past);
             var x := Decided(c, w.log, i, w.callers[i].attempt, stamp);
             x.Loaded? ==> FreshlyStamped(c, Meddle(w.log, rivals), x)
    ensures var w, w' := After(c, start, past), After(c, start, run);
            && i < |w'.callers|
            && (w'.log, w'.callers[i]) == Attempt(c, i, w.log, w.callers[i].attempt, stamp, rivals)
  {
    var x := Decided(c, After(c, start, past).log, i, After(c, start, past).callers[i].attempt, stamp);
    Extend(c, start, past, Load(i, stamp));
    run := past + [Load(i, stamp)];
    if x.Loaded? {
      run := MeddleIsARun(c, start, run, rivals);
      Extend(c, start, run, Commit(i));
      run := run + [Commit(i)];
    }
  }

  /** So whatever `AppendDecision` does is serializable with everyone else. */
  lemma {:induction false} CallIsARun(c: Command, i: nat, start: Log, past: seq<Step>, attempt: nat,
                                      stamps: seq<Stamp>, rivals: seq<seq<Rival>>)
    returns (run: seq<Step>)
    requires attempt < |stamps| == MAX_OCC_RETRIES <= |rivals|
    requires i < |c.decides| && i < |After(c, start, past).callers|
    requires After(c, start, past).callers[i] == Ready(attempt)
    requires CallFresh(c, i, After(c, start, past).log, attempt, stamps, rivals)
    ensures var w, w' := After(c, start, past), After(c, start, run);
            i < |w'.callers| && (w'.log, w'.callers[i]) == Call(c, i, w.log, attempt, stamps, rivals)
    decreases |stamps| - attempt
  {
    run := AttemptIsARun(c, i, start, past, stamps[attempt], rivals[attempt]);
    if After(c, start, run).callers[i].Ready? {
      RetryCounts(c, i, After(c, start, past).log, attempt, stamps[attempt], rivals[attempt]);
      run := CallIsARun(c, i, start, run, attempt + 1, stamps, rivals);
    }
  }
}
