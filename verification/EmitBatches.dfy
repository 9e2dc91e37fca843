/** `execute_emit`: validate a whole batch, split it into runs of consecutive
    same-stream facts, append each run atomically, and work out at which
    revision each fact of a run is folded. */
module EmitBatches {
  import opened JsonValue
  import opened EventLog
  import opened LogStore

  datatype Fact = Fact(name: string, subject: string, subjectId: Uuid, payload: Payload, declared: Option<Uuid>)

  /** An emit and what the runtime stamps on it: fresh ids, a fallback
      workflow, a time. */
  datatype Emit = Emit(
    facts: seq<Fact>,
    workflow: Option<Uuid>,
    eventId: Option<Uuid>,
    causation: Option<Uuid>,
    metadata: map<string, Json>,
    ids: nat -> Uuid,
    anyWorkflow: Uuid,
    now: nat)

  datatype Pending = Pending(stream: StreamId, data: EventData)

  // ── Validation ────────────────────────────────────────────────────

  function FirstDeclared(facts: seq<Fact>): Option<Uuid> {
    if facts == [] then None
    else if facts[0].declared.Some? then facts[0].declared
    else FirstDeclared(facts[1..])
  }

  /** The batch's one workflow: declared by every fact and nobody else, or
      declared by none. */
  function WorkflowOf(e: Emit): Option<Uuid> {
    var first := FirstDeclared(e.facts);
    if first.None? then Some(if e.workflow.Some? then e.workflow.value else e.anyWorkflow)
    else if e.workflow.Some? || exists f | f in e.facts :: f.declared != first then None
    else first
  }

  predicate Accepted(e: Emit, occ: set<string>) {
    && WorkflowOf(e).Some?
    && (e.eventId.Some? ==> |e.facts| <= 1)
    && forall f | f in e.facts :: f.name !in occ
  }

  function Envelope(e: Emit, i: nat): Pending
    requires i < |e.facts| && WorkflowOf(e).Some?
  {
    var f := e.facts[i];
    var id := if e.eventId.Some? then e.eventId.value else e.ids(i);
    Pending(StreamId(f.subject, f.subjectId),
            EventData(id, e.causation, WorkflowOf(e).value, f.name, f.payload, e.now,
                      Some(f.subject), Some(f.subjectId), e.metadata, None, true))
  }

  function PendingOf(e: Emit): seq<Pending>
    requires WorkflowOf(e).Some?
  {
    seq(|e.facts|, i requires 0 <= i < |e.facts| => Envelope(e, i))
  }

  // ── Runs ──────────────────────────────────────────────────────────

  /** How far the run that starts a batch reaches. */
  function RunLength(p: seq<Pending>): (n: nat)
    requires p != []
    ensures 1 <= n <= |p|
    ensures forall k | 0 <= k < n :: p[k].stream == p[0].stream
    ensures n < |p| ==> p[n].stream != p[0].stream
  {
    if |p| > 1 && p[1].stream == p[0].stream then 1 + RunLength(p[1..]) else 1
  }

  function Runs(p: seq<Pending>): seq<seq<Pending>> {
    if p == [] then [] else [p[..RunLength(p)]] + Runs(p[RunLength(p)..])
  }

  function Concat(runs: seq<seq<Pending>>): seq<Pending> {
    if runs == [] then [] else runs[0] + Concat(runs[1..])
  }

  predicate OneStream(run: seq<Pending>) {
    run != [] && forall k | 0 <= k < |run| :: run[k].stream == run[0].stream
  }

  ghost predicate AllOneStream(runs: seq<seq<Pending>>) {
    forall k: nat {:trigger OneStream(runs[k])} | k < |runs| :: OneStream(runs[k])
  }

  predicate Apart(a: seq<Pending>, b: seq<Pending>) {
    OneStream(a) && OneStream(b) && a[0].stream != b[0].stream
  }

  /** Non-empty single-stream runs, no two neighbours on the same stream. */
  predicate MaximalRuns(runs: seq<seq<Pending>>) {
    runs == [] || (OneStream(runs[0]) && (|runs| > 1 ==> Apart(runs[0], runs[1])) && MaximalRuns(runs[1..]))
  }

  lemma {:induction false} EachOneStream(runs: seq<seq<Pending>>, k: nat)
    requires MaximalRuns(runs) && k < |runs|
    ensures OneStream(runs[k])
  {
    if k > 0 { EachOneStream(runs[1..], k - 1); }
  }

  lemma FirstRunOf(p: seq<Pending>)
    requires p != []
    ensures Runs(p) != [] && Runs(p)[0] == p[..RunLength(p)] && OneStream(Runs(p)[0]) && Runs(p)[0][0] == p[0]
    ensures Runs(p)[1..] == Runs(p[RunLength(p)..])
  {
  }

  lemma {:induction false} ConcatStep(runs: seq<seq<Pending>>, first: seq<Pending>, rest: seq<seq<Pending>>)
    requires runs != [] && runs[0] == first && runs[1..] == rest
    ensures Concat(runs) == first + Concat(rest)
  {
  }

  lemma {:induction false} RunsConcat(p: seq<Pending>)
    ensures Concat(Runs(p)) == p
    decreases |p|
  {
    if p != [] {
      var n, runs := RunLength(p), Runs(p);
      FirstRunOf(p);
      RunsConcat(p[n..]);
      ConcatStep(runs, p[..n], Runs(p[n..]));
    } else {
      assert Runs(p) == [];
    }
  }

  /** The split gives the batch back and its runs are maximal. */
  lemma {:induction false} RunsAreMaximal(p: seq<Pending>)
    ensures Concat(Runs(p)) == p && MaximalRuns(Runs(p))
    decreases |p|
  {
    RunsConcat(p);
    if p != [] {
      FirstRunOf(p);
      RunsAreMaximal(p[RunLength(p)..]);
      if RunLength(p) < |p| { NeighboursApart(p, RunLength(p)); }
    }
  }

  lemma NeighboursApart(p: seq<Pending>, n: nat)
    requires p != [] && n == RunLength(p) < |p|
    ensures |Runs(p)| > 1 && Apart(Runs(p)[0], Runs(p)[1])
  {
  }

  lemma {:induction false} RunLengthIs(p: seq<Pending>, n: nat)
    requires 1 <= n <= |p| && (forall k | 0 <= k < n :: p[k].stream == p[0].stream)
    requires n < |p| ==> p[n].stream != p[0].stream
    ensures RunLength(p) == n
  {
  }

  /** The first run of any maximal split is as long as `RunLength` says. */
  lemma FirstRun(runs: seq<seq<Pending>>)
    requires MaximalRuns(runs) && runs != []
    ensures var p, n := Concat(runs), |runs[0]|;
            p != [] && RunLength(p) == n && p[..n] == runs[0] && p[n..] == Concat(runs[1..])
  {
    var p, n := Concat(runs), |runs[0]|;
    assert forall k | 0 <= k < n :: p[k] == runs[0][k];
    if n < |p| {
      var rest := runs[1..];
      assert p[n] == Concat(rest)[0] && rest[0] == runs[1];
      assert Concat(rest) == rest[0] + Concat(rest[1..]);
      assert Apart(runs[0], runs[1]) && Concat(rest)[0] == runs[1][0];
    }
    RunLengthIs(p, n);
  }

  /** The split is the only one of its kind. */
  lemma {:induction false} RunsAreUnique(runs: seq<seq<Pending>>)
    requires MaximalRuns(runs)
    ensures Runs(Concat(runs)) == runs
    decreases |runs|
  {
    if runs != [] {
      FirstRun(runs);
      RunsAreUnique(runs[1..]);
      assert runs == [runs[0]] + runs[1..];
    }
  }

  // ── Appending the runs ────────────────────────────────────────────

  function Chunk(run: seq<Pending>): seq<EventData> {
    seq(|run|, k requires 0 <= k < |run| => run[k].data)
  }

  /** One run: atomic, with no expectation on the stream's head. */
  function AppendRun(log: Log, run: seq<Pending>): (Log, AppendResult)
    requires run != []
  {
    Append(log, run[0].stream, Any, Chunk(run))
  }

  /** The log with the first `n` runs durable. */
  function Durable(log: Log, runs: seq<seq<Pending>>, n: nat): Log
    requires n <= |runs|
  {
    if n == 0 then log
    else
      var before := Durable(log, runs, n - 1);
      if runs[n - 1] == [] then before else AppendRun(before, runs[n - 1]).0
  }

  /** The backend takes run `k`. */
  predicate Taken(log: Log, runs: seq<seq<Pending>>, k: nat)
    requires k < |runs|
  {
    runs[k] != [] && AppendRun(Durable(log, runs, k), runs[k]).1.Written?
  }

  /** Exactly the first `n` runs land: the next one, if any, is refused or, at
      `outage`, lost to the backend. */
  ghost predicate Lands(log: Log, runs: seq<seq<Pending>>, outage: Option<nat>, n: nat) {
    && n <= |runs|
    && (forall k: nat | k < n :: Taken(log, runs, k) && outage != Some(k))
    && (n < |runs| ==> outage == Some(n) || !Taken(log, runs, n))
  }

  /** `n` runs landed, are durable and folded, and nothing else was written. */
  ghost predicate Did(log: Log, runs: seq<seq<Pending>>, outage: Option<nat>, n: nat, log': Log, folds: seq<int>) {
    && Lands(log, runs, outage, n)
    && log' == Durable(log, runs, n) && folds == AllFoldRevisions(log, runs, n)
  }

  /** The position an emit has got to after `n` runs: its last append's. */
  function Reached(log: Log, runs: seq<seq<Pending>>, n: nat): nat
    requires n <= |runs|
  {
    if n == 0 || runs[n - 1] == [] then 0
    else
      var r := AppendRun(Durable(log, runs, n - 1), runs[n - 1]).1;
      if r.Written? then r.position else 0
  }

  datatype EmitResult = Refused | FailedAfter(runs: nat) | Emitted(position: nat, workflow: Uuid)

  /** How many runs an emit that got to appending has made durable. */
  function LandedRuns(r: EmitResult, runs: seq<seq<Pending>>): nat {
    match r
    case Refused => 0
    case FailedAfter(n) => n
    case Emitted(_, _) => |runs|
  }

  /** The revisions the facts of an appended run are folded at, counted back
      from the last one's. */
  function FoldRevisions(n: nat, revision: nat): seq<int> {
    seq(n, k requires 0 <= k < n => revision - (n - 1 - k))
  }

  /** Those of the first `n` runs, one after another. */
  function AllFoldRevisions(log: Log, runs: seq<seq<Pending>>, n: nat): seq<int>
    requires n <= |runs|
  {
    if n == 0 || runs[n - 1] == [] then []
    else
      var r := AppendRun(Durable(log, runs, n - 1), runs[n - 1]).1;
      AllFoldRevisions(log, runs, n - 1) + if r.Written? then FoldRevisions(|runs[n - 1]|, r.revision) else []
  }

  function FallbackWorkflow(e: Emit): Uuid {
    if e.workflow.Some? then e.workflow.value else e.anyWorkflow
  }

  /** Scan to the end of the run that starts at `i`. */
  method NextRun(pending: seq<Pending>, i: nat) returns (j: nat)
    requires i < |pending|
    ensures j == i + RunLength(pending[i..])
  {
    j := i + 1;
    while j < |pending| && pending[j].stream == pending[i].stream
      invariant i < j <= |pending|
      invariant forall k | i <= k < j :: pending[k].stream == pending[i].stream
    {
      j := j + 1;
    }
    RunLengthIs(pending[i..], j - i);
  }

  /** What an emit does, `outage` naming the run whose append the backend
      loses. An empty batch succeeds without writing; a refused one leaves
      nothing; one that fails leaves exactly the runs before the failing one;
      one that succeeds reports where its last run landed. */
  ghost predicate EmitDoes(log: Log, e: Emit, occ: set<string>, outage: Option<nat>, log': Log, r: EmitResult,
      folds: seq<int>) {
    if e.facts == [] then
      r == Emitted(LastPosition(log), FallbackWorkflow(e)) && log' == log && folds == []
    else if !Accepted(e, occ) then
      r == Refused && log' == log && folds == []
    else
      AppendsDo(log, PendingOf(e), outage, WorkflowOf(e).value, log', r, folds)
  }

  ghost predicate AppendsDo(log: Log, p: seq<Pending>, outage: Option<nat>, workflow: Uuid, log': Log, r: EmitResult,
      folds: seq<int>) {
    var runs := Runs(p);
    && !r.Refused? && Did(log, runs, outage, LandedRuns(r, runs), log', folds)
    && (r.FailedAfter? ==> r.runs < |runs|)
    && (r.Emitted? ==> r == Emitted(Reached(log, runs, |runs|), workflow))
  }

  /** `execute_emit` */
  method ExecuteEmit(log: MemoryLog, e: Emit, occ: set<string>, outage: Option<nat>)
    returns (r: EmitResult, folds: seq<int>)
    modifies log
    ensures EmitDoes(old(log.events), e, occ, outage, log.events, r, folds)
  {
    folds := [];
    if e.facts == [] {
      r := Emitted(LastPosition(log.events), FallbackWorkflow(e));
      return;
    }
    if !Accepted(e, occ) { return Refused, folds; }
    r, folds := AppendRuns(log, PendingOf(e), outage, WorkflowOf(e).value);
  }

  method AppendRuns(log: MemoryLog, pending: seq<Pending>, outage: Option<nat>, workflow: Uuid)
    returns (r: EmitResult, folds: seq<int>)
    modifies log
    ensures AppendsDo(old(log.events), pending, outage, workflow, log.events, r, folds)
  {
    ghost var was, runs := log.events, Runs(pending);
    var i, k, last := 0, 0, 0;
    folds := [];
    NothingDone(was, runs, outage);
    while i < |pending|
      invariant i <= |pending| && k <= |runs| && Runs(pending[i..]) == runs[k..]
      invariant Progressed(was, runs, outage, k, log.events, folds, last)
    {
      var j := NextRun(pending, i);
      var run := CutRun(pending, i, j, runs, k);
      var taken := false;
      if outage != Some(k) {
        taken, folds, last := TakeRun(log, run, folds, last, was, runs, outage, k);
      }
      if !taken {
        StopsShort(was, pending, outage, workflow, k, log.events, folds, last);
        return FailedAfter(k), folds;
      }
      i := j;
      k := k + 1;
    }
    AllTaken(was, pending, outage, workflow, log.events, folds, last);
    r := Emitted(last, workflow);
  }

  lemma NothingDone(log: Log, runs: seq<seq<Pending>>, outage: Option<nat>)
    ensures Progressed(log, runs, outage, 0, log, [], 0)
  {
  }

  lemma StopsShort(log: Log, p: seq<Pending>, outage: Option<nat>, workflow: Uuid, k: nat, log': Log, folds: seq<int>,
      last: nat)
    requires k < |Runs(p)| && Progressed(log, Runs(p), outage, k, log', folds, last)
    requires outage == Some(k) || !Taken(log, Runs(p), k)
    ensures AppendsDo(log, p, outage, workflow, log', FailedAfter(k), folds)
  {
  }

  lemma AllTaken(log: Log, p: seq<Pending>, outage: Option<nat>, workflow: Uuid, log': Log, folds: seq<int>, last: nat)
    requires Progressed(log, Runs(p), outage, |Runs(p)|, log', folds, last)
    ensures AppendsDo(log, p, outage, workflow, log', Emitted(last, workflow), folds)
  {
  }

  /** Append one run and fold its facts, unless the backend refuses it. */
  method TakeRun(log: MemoryLog, run: seq<Pending>, done: seq<int>, reached: nat,
      ghost was: Log, ghost runs: seq<seq<Pending>>, ghost outage: Option<nat>, ghost k: nat)
    returns (taken: bool, folds: seq<int>, last: nat)
    requires k < |runs| && run == runs[k] && run != [] && outage != Some(k)
    requires Progressed(was, runs, outage, k, log.events, done, reached)
    modifies log
    ensures !taken ==> Progressed(was, runs, outage, k, log.events, folds, last) && !Taken(was, runs, k)
    ensures taken ==> Progressed(was, runs, outage, k + 1, log.events, folds, last)
  {
    var r := log.AppendToStream(run[0].stream, Any, Chunk(run));
    OneRun(was, runs, outage, k, log.events, r, done, reached);
    if r.Written? {
      taken, folds, last := true, done + FoldRevisions(|run|, r.revision), r.position;
    } else {
      taken, folds, last := false, done, reached;
    }
  }

  /** The first `k` runs are durable and folded, the last of them at `last`,
      and nothing else happened. */
  ghost predicate Progressed(log: Log, runs: seq<seq<Pending>>, outage: Option<nat>, k: nat, log': Log,
      folds: seq<int>, last: nat)
    requires k <= |runs|
  {
    && log' == Durable(log, runs, k) && folds == AllFoldRevisions(log, runs, k) && last == Reached(log, runs, k)
    && forall m: nat | m < k :: Taken(log, runs, m) && outage != Some(m)
  }

  lemma OneRun(log: Log, runs: seq<seq<Pending>>, outage: Option<nat>, k: nat, log': Log, r: AppendResult,
      folds: seq<int>, last: nat)
    requires k < |runs| && runs[k] != [] && outage != Some(k)
    requires (log', r) == AppendRun(Durable(log, runs, k), runs[k])
    requires Progressed(log, runs, outage, k, Durable(log, runs, k), folds, last)
    ensures !r.Written? ==> Progressed(log, runs, outage, k, log', folds, last) && !Taken(log, runs, k)
    ensures r.Written? ==>
              Progressed(log, runs, outage, k + 1, log', folds + FoldRevisions(|runs[k]|, r.revision), r.position)
  {
  }

  method CutRun(pending: seq<Pending>, i: nat, j: nat, ghost runs: seq<seq<Pending>>, ghost k: nat)
    returns (run: seq<Pending>)
    requires i < j <= |pending| && j == i + RunLength(pending[i..])
    requires k <= |runs| && Runs(pending[i..]) == runs[k..]
    ensures k < |runs| && run == runs[k] && run != [] && Runs(pending[j..]) == runs[k + 1..]
  {
    run := pending[i..j];
    RunAt(pending, i, j, runs, k);
  }

  lemma {:induction false} RunAt(pending: seq<Pending>, i: nat, j: nat, runs: seq<seq<Pending>>, k: nat)
    requires i < j <= |pending| && j == i + RunLength(pending[i..])
    requires k <= |runs| && Runs(pending[i..]) == runs[k..]
    ensures k < |runs| && runs[k] == pending[i..j] && Runs(pending[j..]) == runs[k + 1..]
  {
    FirstRunOf(pending[i..]);
    assert pending[i..][..j - i] == pending[i..j] && pending[i..][j - i..] == pending[j..];
    assert runs[k..][0] == runs[k] && runs[k..][1..] == runs[k + 1..];
  }

  // ── What a landed batch looks like ────────────────────────────────

  /** Every id of the batch is new and used once. */
  ghost predicate NewIds(log: Log, p: seq<Pending>) {
    && (forall k | 0 <= k < |p| :: FindById(log, p[k].data.eventId).None?)
    && (forall j, k | 0 <= j < k < |p| :: p[j].data.eventId != p[k].data.eventId)
  }

  /** The stored event carries the fact. */
  ghost predicate Carries(x: Event, p: Pending) {
    && x.stream == p.stream && x.kind == p.data.kind && x.payload == p.data.payload
    && x.eventId == p.data.eventId && x.workflow == p.data.workflow && x.causation == p.data.causation
  }

  ghost predicate AllCarry(h: seq<Event>, p: seq<Pending>) {
    |h| == |p| && forall k | 0 <= k < |h| :: Carries(h[k], p[k])
  }

  lemma FindInPrefix(a: Log, b: Log, id: Uuid)
    requires FindById(a, id).None? && forall k | 0 <= k < |b| :: b[k].eventId != id
    ensures FindById(a + b, id).None?
  {
  }

  /** One run of new facts: appended whole, and folded at the revisions the
      stream gives its facts, none below zero. */
  lemma RunLands(log: Log, run: seq<Pending>)
    requires OneStream(run) && NewIds(log, run)
    ensures var (log', r) := AppendRun(log, run);
            && log' == log + Records(log, run[0].stream, Chunk(run))
            && AllCarry(Records(log, run[0].stream, Chunk(run)), run)
            && r.Written? && r.revision + 1 >= |run|
            && (forall k | 0 <= k < |run| ::
                  FoldRevisions(|run|, r.revision)[k] == Records(log, run[0].stream, Chunk(run))[k].revision)
  {
    var chunk := Chunk(run);
    forall d | d in chunk ensures FindById(log, d.eventId).None? {
      var k :| 0 <= k < |chunk| && chunk[k] == d;
      assert run[k].data == d;
    }
    FreshAppend(log, run[0].stream, Any, chunk);
  }

  /** What the registry is handed for fact `k` — the run's position standing in
      for the fact's own — is a committed event of the log, so folding it
      converges. */
  lemma FoldedFactIsCommitted(log: Log, run: seq<Pending>, k: nat)
    requires OneStream(run) && NewIds(log, run) && k < |run|
    ensures var (log', r) := AppendRun(log, run);
            && r.Written? && FoldRevisions(|run|, r.revision)[k] >= 0
            && Committed(log', Event(run[0].stream, FoldRevisions(|run|, r.revision)[k], r.position, run[k].data.kind,
                                     run[k].data.payload, run[k].data.eventId, run[k].data.workflow,
                                     run[k].data.causation))
  {
    RunLands(log, run);
    var s, rs := run[0].stream, Records(log, run[0].stream, Chunk(run));
    AppendKeepsStreams(log, s, Chunk(run), s);
    assert (Stream(log, s) + rs)[|Stream(log, s)| + k] == rs[k];
    assert Carries(rs[k], run[k]);
  }

  /** New ids stay new for the rest of a batch once its front has landed. */
  lemma StillNew(log: Log, front: seq<Pending>, rest: seq<Pending>, h: seq<Event>)
    requires NewIds(log, front + rest) && AllCarry(h, front)
    ensures NewIds(log + h, rest)
  {
    var all := front + rest;
    forall k | 0 <= k < |rest| ensures FindById(log + h, rest[k].data.eventId).None? {
      assert all[|front| + k] == rest[k];
      forall j | 0 <= j < |h| ensures h[j].eventId != rest[k].data.eventId {
        assert Carries(h[j], front[j]) && all[j] == front[j];
      }
      FindInPrefix(log, h, rest[k].data.eventId);
    }
    forall j, k | 0 <= j < k < |rest| ensures rest[j].data.eventId != rest[k].data.eventId {
      assert all[|front| + j] == rest[j] && all[|front| + k] == rest[k];
    }
  }

  lemma {:induction false} ConcatSnoc(runs: seq<seq<Pending>>, n: nat)
    requires n < |runs|
    ensures Concat(runs[..n + 1]) == Concat(runs[..n]) + runs[n]
  {
    if n == 0 {
      assert runs[..1] == [runs[0]];
      assert Concat([runs[0]]) == runs[0] + Concat([]);
    } else {
      ConcatSnoc(runs[1..], n - 1);
      assert runs[..n + 1][1..] == runs[1..][..n] && runs[..n][1..] == runs[1..][..n - 1];
    }
  }

  lemma {:induction false} ConcatPrefix(runs: seq<seq<Pending>>, n: nat)
    requires n <= |runs|
    ensures Concat(runs) == Concat(runs[..n]) + Concat(runs[n..])
  {
    if n == 0 {
      assert runs[..0] == [] && runs[0..] == runs;
    } else {
      ConcatPrefix(runs[1..], n - 1);
      assert runs[..n][1..] == runs[1..][..n - 1] && runs[1..][n - 1..] == runs[n..];
    }
  }

  lemma {:induction false} ConcatSplit(runs: seq<seq<Pending>>, n: nat)
    requires n < |runs|
    ensures Concat(runs) == Concat(runs[..n]) + (runs[n] + Concat(runs[n + 1..]))
  {
    if n > 0 {
      var rest := runs[1..];
      ConcatSplit(rest, n - 1);
      assert runs[..n][1..] == rest[..n - 1] && rest[n..] == runs[n + 1..] && rest[n - 1] == runs[n];
    } else {
      assert runs[..0] == [];
    }
  }

  /** `log'` is `log` with the facts of some runs appended in order, each
      folded at its stored revision. */
  ghost predicate Landed(log: Log, facts: seq<Pending>, log': Log, revisions: seq<int>) {
    && log <= log'
    && AllCarry(log'[|log|..], facts)
    && |revisions| == |log'| - |log|
    && forall k | 0 <= k < |revisions| :: revisions[k] == log'[|log| + k].revision
  }

  lemma NextIsNew(log: Log, runs: seq<seq<Pending>>, n: nat, before: Log)
    requires n < |runs| && NewIds(log, Concat(runs)) && log <= before
    requires AllCarry(before[|log|..], Concat(runs[..n]))
    ensures NewIds(before, runs[n])
  {
    ConcatSplit(runs, n);
    NewMiddle(log, Concat(runs[..n]), runs[n], Concat(runs[n + 1..]), before[|log|..]);
    assert log + before[|log|..] == before;
  }

  lemma NewMiddle(log: Log, front: seq<Pending>, run: seq<Pending>, rest: seq<Pending>, h: seq<Event>)
    requires NewIds(log, front + (run + rest)) && AllCarry(h, front)
    ensures NewIds(log + h, run)
  {
    StillNew(log, front, run + rest, h);
    forall k | 0 <= k < |run| ensures FindById(log + h, run[k].data.eventId).None? {
      assert (run + rest)[k] == run[k];
    }
    forall j, k | 0 <= j < k < |run| ensures run[j].data.eventId != run[k].data.eventId {
      assert (run + rest)[j] == run[j] && (run + rest)[k] == run[k];
    }
  }

  lemma NextLands(log: Log, facts: seq<Pending>, before: Log, done: seq<int>, run: seq<Pending>)
    requires Landed(log, facts, before, done) && OneStream(run) && NewIds(before, run)
    ensures var (log', r) := AppendRun(before, run);
            r.Written? && Landed(log, facts + run, log', done + FoldRevisions(|run|, r.revision))
  {
    RunLands(before, run);
    var r := AppendRun(before, run).1;
    var rs := Records(before, run[0].stream, Chunk(run));
    LandedJoin(log, facts, before, done, run, rs, FoldRevisions(|run|, r.revision));
  }

  lemma LandedJoin(log: Log, facts: seq<Pending>, before: Log, done: seq<int>, run: seq<Pending>, rs: seq<Event>,
      more: seq<int>)
    requires Landed(log, facts, before, done) && AllCarry(rs, run) && |more| == |rs|
    requires forall k | 0 <= k < |rs| :: more[k] == rs[k].revision
    ensures Landed(log, facts + run, before + rs, done + more)
  {
  }

  /** Durability, run by run: after `n` runs the log holds, in input order,
      exactly the facts of those runs, and each was folded at its stored
      revision. */
  lemma {:induction false} RunsLand(log: Log, runs: seq<seq<Pending>>, n: nat)
    requires n <= |runs| && NewIds(log, Concat(runs)) && AllOneStream(runs)
    ensures Landed(log, Concat(runs[..n]), Durable(log, runs, n), AllFoldRevisions(log, runs, n))
  {
    if n == 0 {
      assert runs[..0] == [] && log[|log|..] == [];
    } else {
      RunsLand(log, runs, n - 1);
      var before, done := Durable(log, runs, n - 1), AllFoldRevisions(log, runs, n - 1);
      NextIsNew(log, runs, n - 1, before);
      assert OneStream(runs[n - 1]);
      NextLands(log, Concat(runs[..n - 1]), before, done, runs[n - 1]);
      ConcatSnoc(runs, n - 1);
    }
  }

  lemma NewWhenReached(log: Log, runs: seq<seq<Pending>>, n: nat)
    requires n < |runs| && NewIds(log, Concat(runs)) && AllOneStream(runs)
    ensures NewIds(Durable(log, runs, n), runs[n])
  {
    RunsLand(log, runs, n);
    NextIsNew(log, runs, n, Durable(log, runs, n));
  }

  lemma NewIsTaken(log: Log, runs: seq<seq<Pending>>, k: nat)
    requires k < |runs| && OneStream(runs[k]) && NewIds(Durable(log, runs, k), runs[k])
    ensures Taken(log, runs, k)
  {
    RunLands(Durable(log, runs, k), runs[k]);
  }

  /** The whole emit, with new ids: what is durable is the input's first facts,
      in order and whole runs at a time, each folded at its stored revision;
      all of them when the backend answers. */
  lemma EmitIsDurableInOrder(log: Log, p: seq<Pending>, outage: Option<nat>, n: nat)
    requires NewIds(log, p) && Lands(log, Runs(p), outage, n)
    ensures var runs := Runs(p);
            && Concat(runs[..n]) <= p
            && Landed(log, Concat(runs[..n]), Durable(log, runs, n), AllFoldRevisions(log, runs, n))
            && (n < |runs| ==> outage == Some(n))
            && (outage.None? ==> n == |runs| && Concat(runs[..n]) == p)
  {
    var runs := Runs(p);
    RunsAreMaximal(p);
    forall k: nat | k < |runs| ensures OneStream(runs[k]) {
      EachOneStream(runs, k);
    }
    RunsLand(log, runs, n);
    ConcatPrefix(runs, n);
    if n < |runs| {
      NewWhenReached(log, runs, n);
      NewIsTaken(log, runs, n);
    } else {
      assert runs[..n] == runs;
    }
  }

  /** With new ids a successful emit reports the position of its last fact,
      the end of the log: every fact of the batch lies at or below it. */
  lemma {:induction false} EmitReportsItsEnd(log: Log, p: seq<Pending>)
    requires NewIds(log, p) && p != []
    ensures var runs := Runs(p);
            var log' := Durable(log, runs, |runs|);
            log' != [] && Reached(log, runs, |runs|) == log'[|log'| - 1].position
  {
    var runs := Runs(p);
    RunsAreMaximal(p);
    forall k: nat | k < |runs| ensures OneStream(runs[k]) {
      EachOneStream(runs, k);
    }
    FirstRunOf(p);
    LastRunEnds(log, runs);
  }

  lemma {:induction false} LastRunEnds(log: Log, runs: seq<seq<Pending>>)
    requires NewIds(log, Concat(runs)) && AllOneStream(runs) && runs != []
    ensures var log' := Durable(log, runs, |runs|);
            log' != [] && Reached(log, runs, |runs|) == log'[|log'| - 1].position
  {
    var last := |runs| - 1;
    NewWhenReached(log, runs, last);
    assert OneStream(runs[last]);
    RunEnds(Durable(log, runs, last), runs[last]);
  }

  lemma {:induction false} RunEnds(log: Log, run: seq<Pending>)
    requires OneStream(run) && NewIds(log, run)
    ensures var (log', r) := AppendRun(log, run);
            r.Written? && log' != [] && r.position == log'[|log'| - 1].position
  {
    RunLands(log, run);
    var rs := Records(log, run[0].stream, Chunk(run));
    assert (log + rs)[|log + rs| - 1] == rs[|rs| - 1];
  }

  /** A run of one new fact, and any later run of one under the same id. */
  lemma {:induction false} RunAgain(log: Log, p: Pending, again: Pending)
    requires FindById(log, p.data.eventId).None? && again.data.eventId == p.data.eventId
    ensures var (log', r) := AppendRun(log, [p]);
            && r.Written? && log' == log + [Record(log, p.stream, 0, p.data)]
            && AppendRun(log', [again])
               == (log',
                   if SameContent(Record(log, p.stream, 0, p.data), again.stream, again.data) then r else Rejected)
  {
    RunLands(log, [p]);
    assert Chunk([p]) == [p.data] && Chunk([again]) == [again.data];
    var row := Record(log, p.stream, 0, p.data);
    assert Records(log, p.stream, [p.data]) == [row];
    FindRecord(log, p.stream, [p.data], 0);
    EchoOfOne(log + [row], again, row);
  }

  /** An append of one fact whose id the log holds: an echo, or refused. */
  lemma {:induction false} EchoOfOne(log: Log, p: Pending, row: Event)
    requires FindById(log, p.data.eventId) == Some(row)
    ensures AppendRun(log, [p])
         == (log, if SameContent(row, p.stream, p.data) then Written(row.position, row.revision) else Rejected)
  {
    assert Chunk([p]) == [p.data];
    if SameContent(row, p.stream, p.data) {
      assert AllStored(log, p.stream, [p.data][1..]);
      EchoStored(log, p.stream, Any, [p.data], row);
    } else {
      DivergentIsRefused(log, p.stream, Any, [p.data], 0, 0);
    }
  }

  lemma {:induction false} OneFact(e: Emit)
    requires |e.facts| == 1 && WorkflowOf(e).Some?
    ensures PendingOf(e) == [Envelope(e, 0)] && Runs(PendingOf(e)) == [[Envelope(e, 0)]]
  {
    assert PendingOf(e) == [Envelope(e, 0)];
    assert [Envelope(e, 0)][1..] == [] && [Envelope(e, 0)][..1] == [Envelope(e, 0)];
  }

  /** What one append of one run makes of an emit the backend does not lose. */
  lemma {:induction false} OneRunDoes(log: Log, run: seq<Pending>, workflow: Uuid, log': Log, r: EmitResult,
      folds: seq<int>)
    requires Runs(run) == [run] && run != [] && AppendsDo(log, run, None, workflow, log', r, folds)
    ensures var (after, result) := AppendRun(log, run);
            if result.Written? then
              log' == after && r == Emitted(result.position, workflow) && folds == FoldRevisions(|run|, result.revision)
            else log' == log && r == FailedAfter(0) && folds == []
  {
    var runs := Runs(run);
    assert Durable(log, runs, 0) == log && AllFoldRevisions(log, runs, 0) == [];
    assert Durable(log, runs, 1) == AppendRun(log, run).0;
    assert Taken(log, runs, 0) <==> AppendRun(log, run).1.Written?;
  }

  /** An event that names its own id may be emitted again, by a redeliverer
      that stamps it anew. The second emit never adds anything. It succeeds,
      reporting what the first one did, exactly when it carries the same
      workflow and cause; a redelivery that names no workflow is given a fresh
      one and is refused. */
  lemma {:induction false} EmitTwice(log: Log, e: Emit, again: Emit, occ: set<string>, once: Log, r: EmitResult,
      folds: seq<int>, twice: Log, echo: EmitResult, refolds: seq<int>)
    requires |e.facts| == 1 && e.eventId.Some? && FindById(log, e.eventId.value).None? && Accepted(e, occ)
    requires again.facts == e.facts && again.eventId == e.eventId && Accepted(again, occ)
    requires EmitDoes(log, e, occ, None, once, r, folds) && EmitDoes(once, again, occ, None, twice, echo, refolds)
    ensures r.Emitted? && |once| == |log| + 1 && log <= once && twice == once
    ensures if WorkflowOf(again) == WorkflowOf(e) && again.causation == e.causation then echo == r && refolds == folds
            else echo == FailedAfter(0) && refolds == []
  {
    var p, q := Envelope(e, 0), Envelope(again, 0);
    OneFact(e);
    OneFact(again);
    RunAgain(log, p, q);
    OneRunDoes(log, [p], WorkflowOf(e).value, once, r, folds);
    OneRunDoes(once, [q], WorkflowOf(again).value, twice, echo, refolds);
  }
}
