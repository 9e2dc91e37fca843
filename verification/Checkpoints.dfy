/** Consumer cursors: the absolute `set` and the monotonic `advance` the
    decision protocol's ack-floor rests on. */
module Checkpoints {
  import opened JsonValue

  type Cursors = map<string, nat>

  function Lookup(c: Cursors, consumer: string): Option<nat> {
    if consumer in c then Some(c[consumer]) else None
  }

  class CheckpointStore {
    var cursors: Cursors

    constructor ()
      ensures cursors == map[]
    {
      cursors := map[];
    }

    method Get(consumer: string) returns (r: Option<nat>)
      ensures r == Lookup(cursors, consumer)
    {
      r := Lookup(cursors, consumer);
    }

    method Set(consumer: string, position: nat)
      modifies this
      ensures cursors == old(cursors)[consumer := position]
    {
      cursors := cursors[consumer := position];
    }

    /** Forward only; alone, it is a maximum. */
    method Advance(consumer: string, position: nat)
      modifies this
      ensures consumer in cursors && cursors == old(cursors)[consumer := cursors[consumer]]
      ensures cursors[consumer]
           == if consumer in old(cursors) && old(cursors)[consumer] > position then old(cursors)[consumer] else position
    {
      var current := Get(consumer);
      if current.None? || position > current.value {
        Set(consumer, position);
      }
    }
  }

  // ── Two writers of one consumer ───────────────────────────────────

  /** The default `advance` as its two steps: a writer reads, then overwrites
      if its position was ahead of what it read. */
  datatype Writer = Idle(position: nat) | Read(position: nat, current: Option<nat>) | Done

  datatype World = World(cursor: Option<nat>, writers: seq<Writer>)

  /** Writer `i`'s next step; `atomic` makes read and write one. */
  function Do(w: World, i: nat, atomic: bool): World
    requires i < |w.writers|
  {
    match w.writers[i]
    case Idle(p) =>
      if atomic then World(Written(w.cursor, p, w.cursor), w.writers[i := Done])
      else w.(writers := w.writers[i := Read(p, w.cursor)])
    case Read(p, current) => World(Written(w.cursor, p, current), w.writers[i := Done])
    case Done => w
  }

  function Written(cursor: Option<nat>, position: nat, current: Option<nat>): Option<nat> {
    if current.None? || position > current.value then Some(position) else cursor
  }

  function After(w: World, schedule: seq<nat>, atomic: bool): World
    decreases |schedule|
  {
    if schedule == [] then w
    else After(if schedule[0] < |w.writers| then Do(w, schedule[0], atomic) else w, schedule[1..], atomic)
  }

  predicate AtLeast(a: Option<nat>, b: Option<nat>) {
    b.None? || (a.Some? && a.value >= b.value)
  }

  /** Nobody is between its read and its write. */
  predicate Unread(w: World) {
    forall i | 0 <= i < |w.writers| :: !w.writers[i].Read?
  }

  /** Atomic advances never move a cursor back, and every writer that is done
      has been taken into account. */
  lemma {:induction false} AtomicIsMonotone(w: World, schedule: seq<nat>)
    requires Unread(w)
    ensures var w' := After(w, schedule, true);
            && Unread(w') && |w'.writers| == |w.writers| && AtLeast(w'.cursor, w.cursor)
            && forall i | 0 <= i < |w.writers| && w.writers[i].Idle? && w'.writers[i].Done? ::
                 AtLeast(w'.cursor, Some(w.writers[i].position))
    decreases |schedule|
  {
    if schedule != [] {
      var next := if schedule[0] < |w.writers| then Do(w, schedule[0], true) else w;
      assert Unread(next);
      AtomicIsMonotone(next, schedule[1..]);
    }
  }

  // ── Exactly when the default regresses ────────────────────────────

  /** The world after the schedule's first `k` steps. */
  function Upto(w: World, schedule: seq<nat>, k: nat): World
    requires k <= |schedule|
  {
    After(w, schedule[..k], false)
  }

  lemma {:induction false} UptoNext(w: World, schedule: seq<nat>, k: nat)
    requires k < |schedule|
    ensures var before := Upto(w, schedule, k);
            Upto(w, schedule, k + 1)
            == if schedule[k] < |before.writers| then Do(before, schedule[k], false) else before
    decreases k
  {
    var next := if schedule[0] < |w.writers| then Do(w, schedule[0], false) else w;
    if k == 0 {
      assert schedule[..0] == [] && schedule[..1][1..] == [];
      assert After(w, [], false) == w && After(next, [], false) == next;
      assert Upto(w, schedule, 1) == After(next, schedule[..1][1..], false);
    } else {
      UptoNext(next, schedule[1..], k - 1);
      assert schedule[..k][1..] == schedule[1..][..k - 1] && schedule[..k + 1][1..] == schedule[1..][..k];
    }
  }

  /** Step `k` reads the cursor for a writer of position `p`. */
  predicate ReadsAt(w: World, schedule: seq<nat>, k: nat, p: nat) {
    k < |schedule| && var before := Upto(w, schedule, k);
    schedule[k] < |before.writers| && before.writers[schedule[k]] == Idle(p)
  }

  /** Step `k` overwrites the cursor with `p`. */
  predicate WritesAt(w: World, schedule: seq<nat>, k: nat, p: nat) {
    k < |schedule| && var before := Upto(w, schedule, k);
    && schedule[k] < |before.writers| && before.writers[schedule[k]].Read? && before.writers[schedule[k]].position == p
    && !AtLeast(before.writers[schedule[k]].current, Some(p))
  }

  /** One writer's read at `r` and write of `p` at `k` enclose another's write
      of a higher position. */
  ghost predicate Overtaken(w: World, schedule: seq<nat>, r: nat, k: nat, p: nat) {
    && r < k && ReadsAt(w, schedule, r, p) && WritesAt(w, schedule, k, p) && schedule[r] == schedule[k]
    && exists m: nat, q: nat :: r < m < k && WritesAt(w, schedule, m, q) && q > p
  }

  /** Step `k` moves the cursor back. */
  predicate RegressesAt(w: World, schedule: seq<nat>, k: nat) {
    k < |schedule| && !AtLeast(Upto(w, schedule, k + 1).cursor, Upto(w, schedule, k).cursor)
  }

  /** A write is the only step that moves the cursor. */
  lemma OneStep(w: World, schedule: seq<nat>, k: nat)
    requires k < |schedule|
    ensures var before, after := Upto(w, schedule, k), Upto(w, schedule, k + 1);
            && |after.writers| == |before.writers|
            && (forall i | 0 <= i < |before.writers| && i != schedule[k] :: after.writers[i] == before.writers[i])
            && (after.cursor != before.cursor ==>
                  exists p: nat :: WritesAt(w, schedule, k, p) && after.cursor == Some(p))
            && (forall p: nat | WritesAt(w, schedule, k, p) :: after.cursor == Some(p))
  {
    UptoNext(w, schedule, k);
    var before := Upto(w, schedule, k);
    if schedule[k] < |before.writers| && before.writers[schedule[k]].Read? {
      var x := before.writers[schedule[k]];
      assert !AtLeast(x.current, Some(x.position)) ==> WritesAt(w, schedule, k, x.position);
    }
  }

  /** A writer between its read and its write has read at some earlier step,
      what the cursor was then. */
  lemma {:induction false} ReadOnce(w: World, schedule: seq<nat>, k: nat, i: nat) returns (r: nat)
    requires Unread(w) && k <= |schedule| && i < |Upto(w, schedule, k).writers| && Upto(w, schedule, k).writers[i].Read?
    ensures r < k && schedule[r] == i && ReadsAt(w, schedule, r, Upto(w, schedule, k).writers[i].position)
    ensures Upto(w, schedule, k).writers[i].current == Upto(w, schedule, r).cursor
  {
    assert schedule[..0] == [];
    OneStep(w, schedule, k - 1);
    UptoNext(w, schedule, k - 1);
    if schedule[k - 1] == i && Upto(w, schedule, k - 1).writers[i].Idle? {
      r := k - 1;
    } else {
      r := ReadOnce(w, schedule, k - 1, i);
    }
  }

  /** If the cursor rose above `p` between two moments, somebody wrote it. */
  lemma {:induction false} RoseByWrite(w: World, schedule: seq<nat>, r: nat, k: nat, p: nat) returns (m: nat, q: nat)
    requires r <= k <= |schedule| && !AtLeast(Upto(w, schedule, r).cursor, Some(p + 1))
    requires AtLeast(Upto(w, schedule, k).cursor, Some(p + 1))
    ensures r <= m < k && WritesAt(w, schedule, m, q) && q > p
    decreases k
  {
    OneStep(w, schedule, k - 1);
    if AtLeast(Upto(w, schedule, k - 1).cursor, Some(p + 1)) {
      m, q := RoseByWrite(w, schedule, r, k - 1, p);
    } else {
      q :| WritesAt(w, schedule, k - 1, q) && Upto(w, schedule, k).cursor == Some(q);
      m := k - 1;
    }
  }

  /** Without a step back the cursor only rises. */
  lemma {:induction false} Rises(w: World, schedule: seq<nat>, m: nat, k: nat)
    requires m <= k <= |schedule| && forall j: nat | m <= j < k :: !RegressesAt(w, schedule, j)
    ensures AtLeast(Upto(w, schedule, k).cursor, Upto(w, schedule, m).cursor)
    decreases k
  {
    if m < k {
      Rises(w, schedule, m, k - 1);
      assert !RegressesAt(w, schedule, k - 1);
    }
  }

  /** The default, read-then-write, keeps a cursor monotone in exactly the
      schedules in which no writer's read and write enclose another's write of
      a higher position. */
  lemma DefaultIsMonotoneExactly(w: World, schedule: seq<nat>)
    requires Unread(w)
    ensures (exists k: nat :: RegressesAt(w, schedule, k))
            <==> (exists r: nat, k: nat, p: nat :: Overtaken(w, schedule, r, k, p))
  {
    if k: nat :| RegressesAt(w, schedule, k) {
      var r, p := RegressIsOvertaken(w, schedule, k);
      assert Overtaken(w, schedule, r, k, p);
    }
    if r: nat, k: nat, p: nat :| Overtaken(w, schedule, r, k, p) {
      OvertakenRegresses(w, schedule, r, k, p);
    }
  }

  lemma RegressIsOvertaken(w: World, schedule: seq<nat>, k: nat) returns (r: nat, p: nat)
    requires Unread(w) && RegressesAt(w, schedule, k)
    ensures Overtaken(w, schedule, r, k, p)
  {
    OneStep(w, schedule, k);
    p :| WritesAt(w, schedule, k, p) && Upto(w, schedule, k + 1).cursor == Some(p);
    r := ReadOnce(w, schedule, k, schedule[k]);
    var m, q := RoseByWrite(w, schedule, r, k, p);
    assert r < m < k && WritesAt(w, schedule, m, q) && q > p;
  }

  lemma OvertakenRegresses(w: World, schedule: seq<nat>, r: nat, k: nat, p: nat)
    requires Overtaken(w, schedule, r, k, p)
    ensures exists j: nat :: RegressesAt(w, schedule, j)
  {
    var m: nat, q: nat :| r < m < k && WritesAt(w, schedule, m, q) && q > p;
    OneStep(w, schedule, m);
    OneStep(w, schedule, k);
    if forall j: nat | m + 1 <= j < k :: !RegressesAt(w, schedule, j) {
      Rises(w, schedule, m + 1, k);
      assert RegressesAt(w, schedule, k);
    }
  }

  /** Two racing writers that regress it: both read the old cursor, and the
      one further behind writes last. */
  lemma RacingDefaultRegresses(p: nat, q: nat)
    requires p < q
    ensures var w := World(None, [Idle(p), Idle(q)]);
            Upto(w, [0, 1, 1, 0], 3).cursor == Some(q) && RegressesAt(w, [0, 1, 1, 0], 3)
  {
    var w, s := World(None, [Idle(p), Idle(q)]), [0, 1, 1, 0];
    assert s[..0] == [];
    UptoNext(w, s, 0);
    UptoNext(w, s, 1);
    UptoNext(w, s, 2);
    UptoNext(w, s, 3);
  }
}
