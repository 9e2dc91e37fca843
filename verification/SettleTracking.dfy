/** The bounded per-workflow high-water table behind `settle`. */
module SettleTracking {
  import opened JsonValue
  import opened EventLog

  const SETTLE_TRACKER_CAP := 65_536

  datatype Table = Table(hw: map<Uuid, nat>, pinned: set<Uuid>)

  /** What `bump` may do; `t'` differs in the victim it evicts. */
  ghost predicate Bumped(t: Table, wf: Uuid, pos: nat, t': Table) {
    && t'.pinned == t.pinned
    && if wf in t.hw then t'.hw == t.hw[wf := Max(pos, t.hw[wf])]
       else if |t.hw| >= SETTLE_TRACKER_CAP && !(t.hw.Keys <= t.pinned) then
         exists victim :: victim in t.hw && victim !in t.pinned && t'.hw == (t.hw - {victim})[wf := pos]
       else t'.hw == t.hw[wf := pos]
  }

  class SettleTracker {
    var hw: map<Uuid, nat>
    var pinned: set<Uuid>

    constructor ()
      ensures Contents() == Table(map[], {})
    {
      hw := map[];
      pinned := {};
    }

    function Contents(): Table
      reads this
    {
      Table(hw, pinned)
    }

    /** Record a chain event's position, keeping the maximum. */
    method Bump(wf: Uuid, pos: nat)
      modifies this
      ensures Bumped(old(Contents()), wf, pos, Contents())
    {
      if wf in hw {
        if pos > hw[wf] { hw := hw[wf := pos]; }
        return;
      }
      if |hw| >= SETTLE_TRACKER_CAP {
        var unpinned := hw.Keys - pinned;
        assert hw.Keys == unpinned + hw.Keys * pinned;
        if unpinned != {} {
          var victim :| victim in unpinned;
          hw := hw - {victim};
          hw := hw[wf := pos];
          assert victim in old(hw) && victim !in pinned && hw == (old(hw) - {victim})[wf := pos];
          return;
        }
      }
      hw := hw[wf := pos];
    }

    method Get(wf: Uuid) returns (pos: Option<nat>)
      ensures pos == if wf in hw then Some(hw[wf]) else None
    {
      pos := if wf in hw then Some(hw[wf]) else None;
    }

    method Forget(wf: Uuid)
      modifies this
      ensures Contents() == Table(old(hw) - {wf}, old(pinned))
    {
      hw := hw - {wf};
    }

    method Pin(wf: Uuid)
      modifies this
      ensures Contents() == Table(old(hw), old(pinned) + {wf})
    {
      pinned := pinned + {wf};
    }

    method Unpin(wf: Uuid)
      modifies this
      ensures Contents() == Table(old(hw), old(pinned) - {wf})
    {
      pinned := pinned - {wf};
    }
  }

  // ── Histories ─────────────────────────────────────────────────────

  datatype Op = Bump(wf: Uuid, pos: nat) | Pin(wf: Uuid) | Unpin(wf: Uuid) | Forget(wf: Uuid)

  ghost predicate Takes(t: Table, op: Op, t': Table) {
    match op
    case Bump(wf, pos) => Bumped(t, wf, pos, t')
    case Pin(wf) => t' == t.(pinned := t.pinned + {wf})
    case Unpin(wf) => t' == t.(pinned := t.pinned - {wf})
    case Forget(wf) => t' == t.(hw := t.hw - {wf})
  }

  /** A history: `tables[i]` is what operations `ops[..i]` left, whatever
      victims the bumps picked. */
  ghost predicate History(ops: seq<Op>, tables: seq<Table>) {
    |tables| == |ops| + 1 &&
    var n := |ops|;
    if n == 0 then tables == [Table(map[], {})]
    else History(ops[..n - 1], tables[..n]) && Takes(tables[n - 1], ops[n - 1], tables[n])
  }

  /** Bumping other workflows never touches a pinned entry, and bumping its own
      never lowers it. */
  lemma PinnedSurvives(t: Table, wf: Uuid, pos: nat, t': Table, pinned: Uuid)
    requires Bumped(t, wf, pos, t') && pinned in t.hw && pinned in t.pinned
    ensures pinned in t'.hw && t'.hw[pinned] >= t.hw[pinned]
    ensures wf != pinned ==> t'.hw[pinned] == t.hw[pinned]
  {
  }

  /** The highest position bumped for `wf` by `ops`, if any. */
  function Highest(ops: seq<Op>, wf: Uuid): Option<nat> {
    if ops == [] then None
    else
      var front, last := Highest(ops[..|ops| - 1], wf), ops[|ops| - 1];
      if !last.Bump? || last.wf != wf then front
      else if front.None? then Some(last.pos)
      else Some(Max(front.value, last.pos))
  }

  /** Since when `wf` has been in the table without a break. */
  ghost function Since(tables: seq<Table>, wf: Uuid): (i: nat)
    requires tables != []
    ensures i < |tables|
    ensures wf !in tables[i].hw || i == 0
    ensures forall j | i < j < |tables| :: wf in tables[j].hw
  {
    if |tables| == 1 || wf !in tables[|tables| - 1].hw then |tables| - 1
    else Since(tables[..|tables| - 1], wf)
  }

  /** An entry is the highest position bumped since its last insertion. */
  lemma {:induction false} EntryIsMaxSinceInsertion(ops: seq<Op>, tables: seq<Table>, wf: Uuid)
    requires History(ops, tables) && wf in tables[|ops|].hw
    ensures Highest(ops[Since(tables, wf)..], wf) == Some(tables[|ops|].hw[wf])
    decreases |ops|
  {
    var n := |ops| - 1;
    var front := tables[..n + 1];
    if wf in tables[n].hw {
      EntryIsMaxSinceInsertion(ops[..n], front, wf);
      SinceSnoc(tables, wf);
      HighestSnoc(ops, Since(front, wf), wf);
    } else {
      assert Since(front, wf) == n;
      SinceSnoc(tables, wf);
      assert ops[n..] == [ops[n]];
      assert Highest([ops[n]][..0], wf) == None;
    }
  }

  lemma SinceSnoc(tables: seq<Table>, wf: Uuid)
    requires |tables| > 1 && wf in tables[|tables| - 1].hw
    ensures Since(tables, wf) == Since(tables[..|tables| - 1], wf)
  {
  }

  lemma HighestSnoc(ops: seq<Op>, i: nat, wf: Uuid)
    requires i < |ops|
    ensures var front, last := Highest(ops[..|ops| - 1][i..], wf), ops[|ops| - 1];
            Highest(ops[i..], wf)
            == if !last.Bump? || last.wf != wf then front
               else if front.None? then Some(last.pos)
               else Some(Max(front.value, last.pos))
  {
    assert ops[i..][..|ops[i..]| - 1] == ops[..|ops| - 1][i..];
  }

  /** The most workflows ever pinned at once. */
  function Peak(tables: seq<Table>): nat {
    if tables == [] then 0 else Max(Peak(tables[..|tables| - 1]), |tables[|tables| - 1].pinned|)
  }

  /** The table outgrows its cap only as far as pins force it to. */
  lemma {:induction false} SizeIsBounded(ops: seq<Op>, tables: seq<Table>)
    requires History(ops, tables)
    ensures |tables[|ops|].hw| <= Max(SETTLE_TRACKER_CAP, Peak(tables) + 1)
    decreases |ops|
  {
    if ops != [] {
      SizeIsBounded(ops[..|ops| - 1], tables[..|ops|]);
      GrowthStep(tables, ops[|ops| - 1]);
    }
  }

  lemma GrowthStep(tables: seq<Table>, op: Op)
    requires |tables| > 1 && Takes(tables[|tables| - 2], op, tables[|tables| - 1])
    requires |tables[|tables| - 2].hw| <= Max(SETTLE_TRACKER_CAP, Peak(tables[..|tables| - 1]) + 1)
    ensures |tables[|tables| - 1].hw| <= Max(SETTLE_TRACKER_CAP, Peak(tables) + 1)
  {
    PeakCovers(tables, |tables| - 2);
    StaysBounded(tables[|tables| - 2], op, tables[|tables| - 1], Peak(tables));
  }

  lemma StaysBounded(t: Table, op: Op, t': Table, peak: nat)
    requires Takes(t, op, t') && |t.pinned| <= peak && |t.hw| <= Max(SETTLE_TRACKER_CAP, peak + 1)
    ensures |t'.hw| <= Max(SETTLE_TRACKER_CAP, peak + 1)
  {
    OpSize(t, op, t');
  }

  lemma OpSize(t: Table, op: Op, t': Table)
    requires Takes(t, op, t')
    ensures |t'.hw| <= Max(Max(SETTLE_TRACKER_CAP, |t.hw|), |t.pinned| + 1)
  {
    match op {
      case Bump(wf, pos) => BumpSize(t, wf, pos, t');
      case Forget(wf) => Smaller(t.hw, wf);
      case Pin(_) =>
      case Unpin(_) =>
    }
  }

  lemma {:induction false} PeakCovers(tables: seq<Table>, i: nat)
    requires i < |tables|
    ensures |tables[i].pinned| <= Peak(tables)
  {
    if i < |tables| - 1 { PeakCovers(tables[..|tables| - 1], i); }
  }

  lemma Smaller(m: map<Uuid, nat>, wf: Uuid)
    ensures |m - {wf}| <= |m|
    ensures wf in m ==> |m - {wf}| == |m| - 1
  {
  }

  lemma Larger(m: map<Uuid, nat>, wf: Uuid, pos: nat)
    ensures wf in m ==> |m[wf := pos]| == |m|
    ensures wf !in m ==> |m[wf := pos]| == |m| + 1
  {
  }

  lemma SubsetSize(a: set<Uuid>, b: set<Uuid>)
    requires a <= b
    ensures |a| <= |b|
  {
    assert a + (b - a) == b;
  }

  lemma BumpSize(t: Table, wf: Uuid, pos: nat, t': Table)
    requires Bumped(t, wf, pos, t')
    ensures |t'.hw| <= Max(Max(SETTLE_TRACKER_CAP, |t.hw|), |t.pinned| + 1)
  {
    Larger(t.hw, wf, pos);
    if wf in t.hw {
      Larger(t.hw, wf, Max(pos, t.hw[wf]));
      Larger(t.hw, wf, t.hw[wf]);
    } else if |t.hw| >= SETTLE_TRACKER_CAP {
      if t.hw.Keys <= t.pinned {
        SubsetSize(t.hw.Keys, t.pinned);
      } else {
        var victim :| victim in t.hw && victim !in t.pinned && t'.hw == (t.hw - {victim})[wf := pos];
        Smaller(t.hw, victim);
        Larger(t.hw - {victim}, wf, pos);
      }
    }
  }

  // ── Settles in flight ─────────────────────────────────────────────

  /** What touches the table: the bump of a chain event; and a settle under its
      own id, which pins its workflow on entry, forgets it once it found the
      run drained, and unpins it on the way out, whether it succeeded or not. */
  datatype Act =
    | Chain(wf: Uuid, pos: nat)
    | Enter(settle: nat, wf: Uuid)
    | Drained(settle: nat)
    | Leave(settle: nat)

  /** A settle waits on its workflow's entry until it has found it drained. */
  datatype Settling = Settling(wf: Uuid, waiting: bool)

  type Live = map<nat, Settling>

  predicate Possible(live: Live, act: Act) {
    match act
    case Chain(_, _) => true
    case Enter(s, _) => s !in live
    case Drained(s) => s in live && live[s].waiting
    case Leave(s) => s in live
  }

  function Next(live: Live, act: Act): Live {
    match act
    case Chain(_, _) => live
    case Enter(s, wf) => live[s := Settling(wf, true)]
    case Drained(s) => if s in live then live[s := live[s].(waiting := false)] else live
    case Leave(s) => live - {s}
  }

  function InFlight(acts: seq<Act>): Live {
    if acts == [] then map[] else Next(InFlight(acts[..|acts| - 1]), acts[|acts| - 1])
  }

  function WorkflowOf(live: Live, s: nat): Uuid {
    if s in live then live[s].wf else 0
  }

  /** What an act does to the table. */
  function OpOf(live: Live, act: Act): Op {
    match act
    case Chain(wf, pos) => Bump(wf, pos)
    case Enter(_, wf) => Pin(wf)
    case Drained(s) => Forget(WorkflowOf(live, s))
    case Leave(s) => Unpin(WorkflowOf(live, s))
  }

  /** Histories of acts, with the tables they leave one after another. */
  ghost predicate Ran(acts: seq<Act>, tables: seq<Table>) {
    |tables| == |acts| + 1 &&
    var n := |acts|;
    if n == 0 then tables == [Table(map[], {})]
    else
      var live := InFlight(acts[..n - 1]);
      && Ran(acts[..n - 1], tables[..n])
      && Possible(live, acts[n - 1]) && Takes(tables[n - 1], OpOf(live, acts[n - 1]), tables[n])
  }

  predicate Waits(live: Live, s: nat) {
    s in live && live[s].waiting
  }

  /** The entry of a settle that waits before and after a step is not dropped
      or lowered by it. */
  ghost predicate Kept(live: Live, t: Table, live': Live, t': Table) {
    forall s | Waits(live, s) && Waits(live', s) && live[s].wf in t.hw ::
      live[s].wf in t'.hw && t'.hw[live[s].wf] >= t.hw[live[s].wf]
  }

  /** No settle in flight ever loses its entry. */
  ghost predicate Protected(acts: seq<Act>, tables: seq<Table>)
    requires |tables| == |acts| + 1
  {
    var n := |acts|;
    n == 0 ||
    (Protected(acts[..n - 1], tables[..n]) && Kept(InFlight(acts[..n - 1]), tables[n - 1], InFlight(acts), tables[n]))
  }

  /** The act forgets or unpins a workflow another settle waits on. */
  predicate Abandons(live: Live, act: Act) {
    (act.Drained? || act.Leave?) && act.settle in live
    && exists s | s in live :: s != act.settle && live[s].waiting && live[s].wf == live[act.settle].wf
  }

  /** No settle forgets or leaves while another of its workflow waits. */
  predicate Calm(acts: seq<Act>) {
    acts == [] || (Calm(acts[..|acts| - 1]) && !Abandons(InFlight(acts[..|acts| - 1]), acts[|acts| - 1]))
  }

  /** The settles of a history, without its chain events. */
  function Settles(acts: seq<Act>): seq<Act> {
    if acts == [] then []
    else if acts[|acts| - 1].Chain? then Settles(acts[..|acts| - 1])
    else Settles(acts[..|acts| - 1]) + [acts[|acts| - 1]]
  }

  /** Settles start and end as they may. */
  predicate Valid(acts: seq<Act>) {
    acts == [] || (Valid(acts[..|acts| - 1]) && Possible(InFlight(acts[..|acts| - 1]), acts[|acts| - 1]))
  }

  /** What is in flight, and whether anybody was abandoned, are matters of the
      settles alone. */
  lemma {:induction false} SettlesDecide(acts: seq<Act>)
    ensures InFlight(Settles(acts)) == InFlight(acts) && (Calm(Settles(acts)) <==> Calm(acts))
  {
    if acts != [] {
      var n := |acts| - 1;
      SettlesDecide(acts[..n]);
      var front := Settles(acts[..n]);
      if !acts[n].Chain? { assert (front + [acts[n]])[..|front|] == front; }
    }
  }

  // ── Nobody abandoned, nothing lost ────────────────────────────────

  ghost predicate WaitersPinned(live: Live, t: Table) {
    forall s | Waits(live, s) :: live[s].wf in t.pinned
  }

  lemma NotAbandoned(live: Live, act: Act, s: nat)
    requires !Abandons(live, act) && (act.Drained? || act.Leave?) && act.settle in live
    requires Waits(live, s) && s != act.settle
    ensures live[s].wf != live[act.settle].wf
  {
  }

  lemma {:induction false} CalmStep(live: Live, act: Act, t: Table, t': Table)
    requires WaitersPinned(live, t) && Possible(live, act) && Takes(t, OpOf(live, act), t') && !Abandons(live, act)
    ensures WaitersPinned(Next(live, act), t') && Kept(live, t, Next(live, act), t')
  {
    var live' := Next(live, act);
    forall s | Waits(live', s) ensures live'[s].wf in t'.pinned {
      if act.Leave? { NotAbandoned(live, act, s); }
    }
    forall s | Waits(live, s) && Waits(live', s) && live[s].wf in t.hw
      ensures live[s].wf in t'.hw && t'.hw[live[s].wf] >= t.hw[live[s].wf]
    {
      if act.Chain? { PinnedSurvives(t, act.wf, act.pos, t', live[s].wf); }
      if act.Drained? { NotAbandoned(live, act, s); }
    }
  }

  lemma {:induction false} CalmIsProtected(acts: seq<Act>, tables: seq<Table>)
    requires Ran(acts, tables) && Calm(acts)
    ensures WaitersPinned(InFlight(acts), tables[|acts|]) && Protected(acts, tables)
    decreases |acts|
  {
    if acts != [] {
      var n := |acts| - 1;
      CalmIsProtected(acts[..n], tables[..n + 1]);
      CalmStep(InFlight(acts[..n]), acts[n], tables[n], tables[n + 1]);
    }
  }

  // ── Somebody abandoned, something lost in some history ────────────

  lemma {:induction false} Extend(acts: seq<Act>, tables: seq<Table>, act: Act, t: Table)
    requires Ran(acts, tables) && Possible(InFlight(acts), act) && Takes(tables[|acts|], OpOf(InFlight(acts), act), t)
    ensures Ran(acts + [act], tables + [t]) && InFlight(acts + [act]) == Next(InFlight(acts), act)
    ensures Settles(acts + [act]) == if act.Chain? then Settles(acts) else Settles(acts) + [act]
    ensures Protected(acts + [act], tables + [t])
            <==> Protected(acts, tables) && Kept(InFlight(acts), tables[|acts|], InFlight(acts + [act]), t)
  {
    assert (acts + [act])[..|acts|] == acts && (tables + [t])[..|acts| + 1] == tables;
  }

  /** A settle's own act, which leaves nothing open. */
  function Taken(t: Table, op: Op): Table
    requires !op.Bump?
  {
    match op
    case Pin(wf) => t.(pinned := t.pinned + {wf})
    case Unpin(wf) => t.(pinned := t.pinned - {wf})
    case Forget(wf) => t.(hw := t.hw - {wf})
  }

  /** A schedule of settles that ran with no chain event at all. */
  lemma {:induction false} RunsBare(schedule: seq<Act>) returns (tables: seq<Table>)
    requires Valid(schedule) && Settles(schedule) == schedule
    ensures Ran(schedule, tables) && tables[|schedule|].hw == map[]
  {
    if schedule == [] {
      tables := [Table(map[], {})];
    } else {
      var n := |schedule| - 1;
      BareFront(schedule);
      tables := RunsBare(schedule[..n]);
      var op := OpOf(InFlight(schedule[..n]), schedule[n]);
      Extend(schedule[..n], tables, schedule[n], Taken(tables[n], op));
      assert schedule[..n] + [schedule[n]] == schedule;
      tables := tables + [Taken(tables[n], op)];
    }
  }

  lemma {:induction false} SettlesShorter(acts: seq<Act>)
    ensures |Settles(acts)| <= |acts|
  {
    if acts != [] { SettlesShorter(acts[..|acts| - 1]); }
  }

  lemma {:induction false} BareFront(schedule: seq<Act>)
    requires schedule != [] && Settles(schedule) == schedule
    ensures !schedule[|schedule| - 1].Chain? && Settles(schedule[..|schedule| - 1]) == schedule[..|schedule| - 1]
  {
    var n := |schedule| - 1;
    SettlesShorter(schedule[..n]);
    assert schedule == schedule[..n] + [schedule[n]];
  }

  /** Other workflows fill the table up to its cap. */
  lemma {:induction false} Fill(acts: seq<Act>, tables: seq<Table>, wf: Uuid, n: nat)
    returns (acts': seq<Act>, tables': seq<Table>)
    requires Ran(acts, tables) && wf in tables[|acts|].hw && wf !in tables[|acts|].pinned
    requires |tables[|acts|].hw| == n <= SETTLE_TRACKER_CAP && forall x | x in tables[|acts|].hw :: x < wf + n
    ensures Ran(acts', tables') && InFlight(acts') == InFlight(acts) && Settles(acts') == Settles(acts)
    ensures var t := tables'[|acts'|];
            && wf in t.hw && wf !in t.pinned && |t.hw| == SETTLE_TRACKER_CAP
            && forall x | x in t.hw :: x < wf + SETTLE_TRACKER_CAP
    decreases SETTLE_TRACKER_CAP - n
  {
    acts', tables' := acts, tables;
    if n < SETTLE_TRACKER_CAP {
      var t := tables[|acts|];
      var t' := t.(hw := t.hw[wf + n := 0]);
      Larger(t.hw, wf + n, 0);
      Extend(acts, tables, Chain(wf + n, 0), t');
      acts', tables' := Fill(acts + [Chain(wf + n, 0)], tables + [t'], wf, n + 1);
    }
  }

  /** Unpinned behind a waiter's back, an entry is evicted once the table is
      full. */
  lemma {:induction false} Evicts(acts: seq<Act>, tables: seq<Table>, s: nat)
    returns (acts': seq<Act>, tables': seq<Table>)
    requires Ran(acts, tables) && Waits(InFlight(acts), s)
    requires var t, wf := tables[|acts|], InFlight(acts)[s].wf; t.hw == map[wf := 0] && wf !in t.pinned
    ensures Ran(acts', tables') && Settles(acts') == Settles(acts) && !Protected(acts', tables')
  {
    var wf := InFlight(acts)[s].wf;
    acts', tables' := Fill(acts, tables, wf, 1);
    var t := tables'[|acts'|];
    var t' := t.(hw := (t.hw - {wf})[wf + SETTLE_TRACKER_CAP := 0]);
    assert Bumped(t, wf + SETTLE_TRACKER_CAP, 0, t');
    Extend(acts', tables', Chain(wf + SETTLE_TRACKER_CAP, 0), t');
    assert !Kept(InFlight(acts'), t, InFlight(acts'), t');
    acts', tables' := acts' + [Chain(wf + SETTLE_TRACKER_CAP, 0)], tables' + [t'];
  }

  /** A schedule that ran bare, then one event of `wf` is bumped. */
  lemma {:induction false} Marks(front: seq<Act>, wf: Uuid) returns (acts: seq<Act>, tables: seq<Table>)
    requires Valid(front) && Settles(front) == front
    ensures Ran(acts, tables) && Settles(acts) == front && InFlight(acts) == InFlight(front)
    ensures tables[|acts|].hw == map[wf := 0]
  {
    tables := RunsBare(front);
    var t := tables[|front|].(hw := map[wf := 0]);
    assert map[][wf := 0] == map[wf := 0];
    Extend(front, tables, Chain(wf, 0), t);
    acts, tables := front + [Chain(wf, 0)], tables + [t];
  }

  /** The act that abandons settle `s` drops its entry, or unpins it. */
  lemma {:induction false} Abandoned(acts: seq<Act>, tables: seq<Table>, act: Act, s: nat)
    requires Ran(acts, tables) && Possible(InFlight(acts), act) && (act.Drained? || act.Leave?)
    requires Waits(InFlight(acts), s) && s != act.settle && act.settle in InFlight(acts)
    requires InFlight(acts)[act.settle].wf == InFlight(acts)[s].wf
    requires tables[|acts|].hw == map[InFlight(acts)[s].wf := 0]
    ensures var wf, t' := InFlight(acts)[s].wf, Taken(tables[|acts|], OpOf(InFlight(acts), act));
            && Ran(acts + [act], tables + [t']) && Settles(acts + [act]) == Settles(acts) + [act]
            && Waits(InFlight(acts + [act]), s) && InFlight(acts + [act])[s].wf == wf
            && (act.Drained? ==> !Protected(acts + [act], tables + [t']))
            && (act.Leave? ==> t'.hw == map[wf := 0] && wf !in t'.pinned)
  {
    var live, t := InFlight(acts), tables[|acts|];
    var t' := Taken(t, OpOf(live, act));
    Extend(acts, tables, act, t');
    assert Waits(live, s) && Waits(Next(live, act), s) && live[s].wf in t.hw;
    assert act.Drained? ==> live[s].wf !in t'.hw;
  }

  /** At the moment settle `s` is abandoned, a bumped entry can be lost. */
  lemma {:induction false} AbandonedLoses(front: seq<Act>, act: Act) returns (acts: seq<Act>, tables: seq<Table>)
    requires Valid(front) && Settles(front) == front && Possible(InFlight(front), act) && Abandons(InFlight(front), act)
    ensures Ran(acts, tables) && Settles(acts) == front + [act] && !Protected(acts, tables)
  {
    var live := InFlight(front);
    var s :| s in live && s != act.settle && live[s].waiting && live[s].wf == live[act.settle].wf;
    acts, tables := Marks(front, live[s].wf);
    Abandoned(acts, tables, act, s);
    acts, tables := acts + [act], tables + [Taken(tables[|acts|], OpOf(live, act))];
    if act.Leave? {
      acts, tables := Evicts(acts, tables, s);
    }
  }

  lemma {:induction false} Loses(schedule: seq<Act>) returns (acts: seq<Act>, tables: seq<Table>)
    requires Valid(schedule) && Settles(schedule) == schedule && !Calm(schedule)
    ensures Ran(acts, tables) && Settles(acts) == schedule && !Protected(acts, tables)
  {
    var n := |schedule| - 1;
    BareFront(schedule);
    assert schedule == schedule[..n] + [schedule[n]];
    if Calm(schedule[..n]) {
      acts, tables := AbandonedLoses(schedule[..n], schedule[n]);
    } else {
      acts, tables := Loses(schedule[..n]);
      SettlesDecide(acts);
      var op := OpOf(InFlight(acts), schedule[n]);
      Extend(acts, tables, schedule[n], Taken(tables[|acts|], op));
      acts, tables := acts + [schedule[n]], tables + [Taken(tables[|acts|], op)];
    }
  }

  // ── The exact condition ───────────────────────────────────────────

  /** Whatever chain events fall between the settles of `schedule`, none of
      them loses its entry while it waits. */
  ghost predicate AlwaysProtected(schedule: seq<Act>) {
    forall acts, tables | Ran(acts, tables) && Settles(acts) == schedule :: Protected(acts, tables)
  }

  /** Pins are a set, and a settle that succeeds forgets the entry: the entry
      of a settle in flight is safe in every history of a schedule exactly when
      no settle of it forgets or leaves a workflow another one waits on. */
  lemma {:induction false} InFlightIsProtectedExactly(schedule: seq<Act>)
    requires Valid(schedule) && Settles(schedule) == schedule
    ensures AlwaysProtected(schedule) <==> Calm(schedule)
  {
    if Calm(schedule) {
      forall acts, tables | Ran(acts, tables) && Settles(acts) == schedule ensures Protected(acts, tables) {
        SettlesDecide(acts);
        CalmIsProtected(acts, tables);
      }
    } else {
      var acts, tables := Loses(schedule);
      assert !Protected(acts, tables);
    }
  }

  /** At most one settle of a workflow at a time. */
  predicate OneEach(live: Live) {
    forall r, s | r in live && s in live && live[r].wf == live[s].wf :: r == s
  }

  /** In particular a schedule is calm when settles of one workflow never
      overlap. */
  lemma {:induction false} SequentialSettlesAreCalm(acts: seq<Act>)
    requires forall n: nat {:trigger InFlight(acts[..n])} | n <= |acts| :: OneEach(InFlight(acts[..n]))
    ensures Calm(acts)
  {
    if acts != [] {
      var n := |acts| - 1;
      forall m: nat | m <= n ensures OneEach(InFlight(acts[..n][..m])) {
        assert acts[..n][..m] == acts[..m];
      }
      SequentialSettlesAreCalm(acts[..n]);
      assert OneEach(InFlight(acts[..n]));
    }
  }

  /** One more settle enters while the table is empty. */
  lemma {:induction false} Enters(acts: seq<Act>, tables: seq<Table>, live: Live, pinned: set<Uuid>, s: nat, wf: Uuid)
    returns (acts': seq<Act>, tables': seq<Table>)
    requires Ran(acts, tables) && InFlight(acts) == live && s !in live && tables[|acts|] == Table(map[], pinned)
    ensures acts' == acts + [Enter(s, wf)] && Ran(acts', tables') && tables'[|acts'|] == Table(map[], pinned + {wf})
    ensures InFlight(acts') == live[s := Settling(wf, true)]
  {
    Extend(acts, tables, Enter(s, wf), Table(map[], pinned + {wf}));
    acts', tables' := acts + [Enter(s, wf)], tables + [Table(map[], pinned + {wf})];
  }

  /** The first of two to succeed forgets the mark the other one waits on. */
  lemma {:induction false} Forgets(acts: seq<Act>, tables: seq<Table>, live: Live, wf: Uuid, pos: nat)
    requires Ran(acts, tables) && InFlight(acts) == live && Waits(live, 0) && Waits(live, 1)
    requires live[0].wf == live[1].wf == wf && tables[|acts|].hw == map[wf := pos]
    ensures var t' := tables[|acts|].(hw := map[]);
            && Ran(acts + [Drained(0)], tables + [t']) && Waits(InFlight(acts + [Drained(0)]), 1)
            && !Protected(acts + [Drained(0)], tables + [t'])
  {
    var t := tables[|acts|];
    var t' := t.(hw := map[]);
    assert map[wf := pos] - {wf} == map[];
    Extend(acts, tables, Drained(0), t');
    assert Waits(live, 1) && Waits(Next(live, Drained(0)), 1) && live[1].wf in t.hw && live[1].wf !in t'.hw;
  }

  /** Two settles of one workflow, far below the cap: the first to succeed
      forgets the mark the second one still waits on. */
  lemma {:induction false} SecondSettleLosesItsMark(wf: Uuid, pos: nat) returns (acts: seq<Act>, tables: seq<Table>)
    ensures acts == [Enter(0, wf), Enter(1, wf), Chain(wf, pos), Drained(0)] && Ran(acts, tables)
    ensures Waits(InFlight(acts), 1) && tables[3].hw == map[wf := pos] && tables[4].hw == map[]
    ensures !Protected(acts, tables)
  {
    acts, tables := Enters([], [Table(map[], {})], map[], {}, 0, wf);
    acts, tables := Enters(acts, tables, map[0 := Settling(wf, true)], {} + {wf}, 1, wf);
    var live := InFlight(acts);
    var t := Table(map[wf := pos], {} + {wf} + {wf});
    Extend(acts, tables, Chain(wf, pos), t);
    acts, tables := acts + [Chain(wf, pos)], tables + [t];
    Forgets(acts, tables, live, wf, pos);
    acts, tables := acts + [Drained(0)], tables + [t.(hw := map[])];
  }
}
