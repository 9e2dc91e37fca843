/** `settle_tree` on a log that no longer grows: which workflows it settles,
    and when its paged scan of the log sees every event. */
module SettleTree {
  import opened JsonValue
  import opened EventLog
  import opened LogStore

  // ── The paged scan ────────────────────────────────────────────────

  /** Every event a scan from index `n` sees: a page, then the pages past the
      position of its last event. */
  function Paged(log: Log, n: nat, limit: nat): seq<Event>
    requires n <= |log| && limit > 0
    decreases |log| - n
  {
    if n == |log| then []
    else
      var m := PageEnd(log, n, limit);
      log[n..m] + Paged(log, NextIndex(log, m, log[m - 1].position), limit)
  }

  /** No page ends inside a group of facts that share a position: the facts on
      either side of every `limit`th boundary differ in theirs. */
  predicate CleanFrom(log: Log, n: nat, limit: nat)
    requires n <= |log| && limit > 0
    decreases |log| - n
  {
    |log| <= n + limit || (log[n + limit - 1].position != log[n + limit].position && CleanFrom(log, n + limit, limit))
  }

  lemma {:induction false} PagedLength(log: Log, n: nat, limit: nat)
    requires n <= |log| && limit > 0
    ensures |Paged(log, n, limit)| <= |log| - n
    decreases |log| - n
  {
    if n < |log| {
      var m := PageEnd(log, n, limit);
      PagedLength(log, NextIndex(log, m, log[m - 1].position), limit);
    }
  }

  /** A page that ends inside a group loses the rest of it. */
  lemma SplitGroup(log: Log, n: nat, limit: nat)
    requires limit > 0 && n + limit < |log| && log[n + limit - 1].position == log[n + limit].position
    ensures Paged(log, n, limit) != log[n..]
  {
  }

  lemma {:induction false} CleanPage(log: Log, n: nat, limit: nat)
    requires limit > 0 && n + limit < |log| && log[n + limit - 1].position < log[n + limit].position
    ensures Paged(log, n, limit) == log[n..] <==> Paged(log, n + limit, limit) == log[n + limit..]
  {
    var m := n + limit;
    FirstPage(log, n, limit, m);
    assert log[n..] == log[n..m] + log[m..];
    SamePrefix(log[n..m], Paged(log, m, limit), log[m..]);
  }

  lemma {:induction false} FirstPage(log: Log, n: nat, limit: nat, m: nat)
    requires limit > 0 && m == n + limit < |log| && log[m - 1].position < log[m].position
    ensures Paged(log, n, limit) == log[n..m] + Paged(log, m, limit)
  {
    assert NextIndex(log, m, log[m - 1].position) == m;
  }

  /** The scan sees the whole log exactly when no page boundary splits a group
      of facts that share a position. */
  lemma {:induction false} ScanIsComplete(log: Log, n: nat, limit: nat)
    requires WellFormed(log) && n <= |log| && limit > 0
    ensures Paged(log, n, limit) == log[n..] <==> CleanFrom(log, n, limit)
    decreases |log| - n
  {
    if n + limit < |log| {
      PagedStep(log, n, limit);
      ScanIsComplete(log, n + limit, limit);
    } else if n < |log| {
      LastPage(log, n, limit);
    }
  }

  /** Distinct positions leave no group to split: every page is clean. */
  lemma {:induction false} DistinctPositionsAreClean(log: Log, n: nat, limit: nat)
    requires n <= |log| && limit > 0 && forall i, j | 0 <= i < j < |log| :: log[i].position != log[j].position
    ensures CleanFrom(log, n, limit)
    decreases |log| - n
  {
    if n + limit < |log| { DistinctPositionsAreClean(log, n + limit, limit); }
  }

  lemma PagedStep(log: Log, n: nat, limit: nat)
    requires WellFormed(log) && limit > 0 && n + limit < |log|
    ensures Paged(log, n, limit) == log[n..] <==>
              log[n + limit - 1].position != log[n + limit].position && Paged(log, n + limit, limit) == log[n + limit..]
  {
    assert Follows(log[n + limit - 1], log[n + limit]);
    if log[n + limit - 1].position == log[n + limit].position {
      SplitGroup(log, n, limit);
    } else {
      CleanPage(log, n, limit);
    }
  }

  lemma LastPage(log: Log, n: nat, limit: nat)
    requires n < |log| <= n + limit
    ensures Paged(log, n, limit) == log[n..]
  {
  }

  lemma SamePrefix(a: seq<Event>, b: seq<Event>, c: seq<Event>)
    ensures a + b == a + c <==> b == c
  {
    if a + b == a + c {
      assert (a + b)[|a|..] == b && (a + c)[|a|..] == c;
    }
  }

  // ── One pass over events ──────────────────────────────────────────

  datatype Scan = Scan(seen: set<Uuid>, found: map<Uuid, nat>)

  function Visit(parents: set<Uuid>, s: Scan, e: Event): Scan {
    if e.workflow in parents then s.(seen := s.seen + {e.eventId})
    else if e.causation.Some? && e.causation.value in s.seen then
      var position := if e.workflow in s.found then Max(s.found[e.workflow], e.position) else e.position;
      s.(found := s.found[e.workflow := position])
    else s
  }

  function Pass(parents: set<Uuid>, events: seq<Event>): Scan {
    if events == [] then Scan({}, map[])
    else Visit(parents, Pass(parents, events[..|events| - 1]), events[|events| - 1])
  }

  /** Event `i` is a parent's and has this id. */
  predicate ParentEvent(parents: set<Uuid>, log: Log, id: Uuid, i: nat) {
    i < |log| && log[i].workflow in parents && log[i].eventId == id
  }

  /** Event `j` belongs to workflow `w`, outside the parents, and was caused by
      an event of theirs. */
  ghost predicate ChildEvent(parents: set<Uuid>, log: Log, w: Uuid, j: nat) {
    && j < |log| && log[j].workflow == w && w !in parents && log[j].causation.Some?
    && exists i: nat :: ParentEvent(parents, log, log[j].causation.value, i)
  }

  /** Causes come before their effects. */
  ghost predicate CausesPrecede(log: Log) {
    forall i: nat, j: nat :: Causes(log, i, j) ==> i < j
  }

  predicate Causes(log: Log, i: nat, j: nat) {
    i < |log| && j < |log| && log[j].causation == Some(log[i].eventId)
  }

  lemma {:induction false} PassSees(parents: set<Uuid>, events: seq<Event>, id: Uuid)
    ensures id in Pass(parents, events).seen <==> exists i: nat :: ParentEvent(parents, events, id, i)
  {
    if events != [] {
      var n := |events| - 1;
      PassSees(parents, events[..n], id);
      if i: nat :| ParentEvent(parents, events, id, i) && i < n {
        assert ParentEvent(parents, events[..n], id, i);
      }
      if i: nat :| ParentEvent(parents, events[..n], id, i) {
        assert ParentEvent(parents, events, id, i);
      }
      assert events[n].workflow in parents && events[n].eventId == id ==> ParentEvent(parents, events, id, n);
    }
  }

  /** The pass counts event `j` for `w`: its cause was seen before it. */
  ghost predicate FoundAt(parents: set<Uuid>, events: seq<Event>, w: Uuid, j: nat) {
    && j < |events| && events[j].workflow == w && w !in parents && events[j].causation.Some?
    && events[j].causation.value in Pass(parents, events[..j]).seen
  }

  /** `p` is the highest position among the events of `w` counted. */
  ghost predicate Furthest(parents: set<Uuid>, events: seq<Event>, w: Uuid, p: Option<nat>) {
    if p.None? then forall j: nat :: !FoundAt(parents, events, w, j)
    else
      && (exists j: nat :: FoundAt(parents, events, w, j) && events[j].position == p.value)
      && (forall j: nat :: FoundAt(parents, events, w, j) ==> events[j].position <= p.value)
  }

  function Entry(found: map<Uuid, nat>, w: Uuid): Option<nat> {
    if w in found then Some(found[w]) else None
  }

  lemma FoundInPrefix(parents: set<Uuid>, events: seq<Event>, w: Uuid, n: nat, j: nat)
    requires j < n <= |events|
    ensures FoundAt(parents, events, w, j) <==> FoundAt(parents, events[..n], w, j)
  {
    assert events[..n][..j] == events[..j];
  }

  lemma {:induction false} PassFinds(parents: set<Uuid>, events: seq<Event>, w: Uuid)
    ensures Furthest(parents, events, w, Entry(Pass(parents, events).found, w))
  {
    if events != [] {
      var n := |events| - 1;
      var front := events[..n];
      PassFinds(parents, front, w);
      forall j: nat | j < n ensures FoundAt(parents, events, w, j) <==> FoundAt(parents, front, w, j) {
        FoundInPrefix(parents, events, w, n, j);
      }
      FurthestSnoc(parents, events, w);
    }
  }

  /** The last event's effect on one workflow's entry. */
  lemma VisitEntry(parents: set<Uuid>, events: seq<Event>, w: Uuid)
    requires events != []
    ensures var n := |events| - 1;
            var before, after := Entry(Pass(parents, events[..n]).found, w), Entry(Pass(parents, events).found, w);
            if FoundAt(parents, events, w, n) then
              after == Some(if before.Some? then Max(before.value, events[n].position) else events[n].position)
            else after == before
  {
  }

  lemma FurthestSnoc(parents: set<Uuid>, events: seq<Event>, w: Uuid)
    requires events != []
    requires var front := events[..|events| - 1];
             && Furthest(parents, front, w, Entry(Pass(parents, front).found, w))
             && forall j: nat | j < |front| :: FoundAt(parents, events, w, j) <==> FoundAt(parents, front, w, j)
    ensures Furthest(parents, events, w, Entry(Pass(parents, events).found, w))
  {
    VisitEntry(parents, events, w);
    var n := |events| - 1;
    Further(parents, events, w, Entry(Pass(parents, events[..n]).found, w), Entry(Pass(parents, events).found, w));
  }

  lemma Further(parents: set<Uuid>, events: seq<Event>, w: Uuid, before: Option<nat>, after: Option<nat>)
    requires events != [] && Furthest(parents, events[..|events| - 1], w, before)
    requires forall j: nat | j < |events| - 1 ::
               FoundAt(parents, events, w, j) <==> FoundAt(parents, events[..|events| - 1], w, j)
    requires var n := |events| - 1;
             if FoundAt(parents, events, w, n) then
               after == Some(if before.Some? then Max(before.value, events[n].position) else events[n].position)
             else after == before
    ensures Furthest(parents, events, w, after)
  {
  }

  /** One forward pass finds the child events, because causes come first. */
  lemma FoundIsChild(parents: set<Uuid>, log: Log, w: Uuid, j: nat)
    requires CausesPrecede(log)
    ensures FoundAt(parents, log, w, j) <==> ChildEvent(parents, log, w, j)
  {
    if j < |log| && log[j].causation.Some? {
      var cause := log[j].causation.value;
      PassSees(parents, log[..j], cause);
      if i: nat :| ParentEvent(parents, log, cause, i) {
        assert Causes(log, i, j);
        assert ParentEvent(parents, log[..j], cause, i);
      }
      if i: nat :| ParentEvent(parents, log[..j], cause, i) {
        assert ParentEvent(parents, log, cause, i);
      }
    }
  }

  /** `p` is the furthest position of the child root `w`, if it is one. */
  ghost predicate ChildRoot(parents: set<Uuid>, log: Log, w: Uuid, p: Option<nat>) {
    if p.None? then forall j: nat :: !ChildEvent(parents, log, w, j)
    else
      && (exists j: nat :: ChildEvent(parents, log, w, j) && log[j].position == p.value)
      && (forall j: nat :: ChildEvent(parents, log, w, j) ==> log[j].position <= p.value)
  }

  /** A full pass reports exactly the child roots, each at its furthest
      position. */
  lemma PassIsChildRoots(parents: set<Uuid>, log: Log, w: Uuid)
    requires CausesPrecede(log)
    ensures ChildRoot(parents, log, w, Entry(Pass(parents, log).found, w))
  {
    PassFinds(parents, log, w);
    forall j: nat ensures FoundAt(parents, log, w, j) <==> ChildEvent(parents, log, w, j) {
      FoundIsChild(parents, log, w, j);
    }
    var p := Entry(Pass(parents, log).found, w);
    if p.Some? {
      var j: nat :| FoundAt(parents, log, w, j) && log[j].position == p.value;
      assert ChildEvent(parents, log, w, j);
    }
  }

  // ── The scan method ───────────────────────────────────────────────

  lemma PositionsRise(log: Log, i: nat, j: nat)
    requires WellFormed(log) && i <= j < |log|
    ensures log[i].position <= log[j].position
  {
    if i < j { assert Follows(log[i], log[j]); }
  }

  /** The scan stands at index `n`: everything before it is at or below
      `from`, everything from it on above. */
  ghost predicate StandsAt(log: Log, n: nat, from: nat) {
    && n <= |log| && (forall i | 0 <= i < n :: log[i].position <= from)
    && (n < |log| ==> log[n].position > from)
  }

  lemma NextPage(log: Log, n: nat, from: nat, limit: nat, page: seq<Event>)
    requires WellFormed(log) && limit > 0 && StandsAt(log, n, from) && page == PageAfter(log, from, limit)
    ensures page == [] <==> n == |log|
    ensures page != [] ==>
              var last := page[|page| - 1].position;
              var k := NextIndex(log, PageEnd(log, n, limit), last);
              n < k && StandsAt(log, k, last) && Paged(log, n, limit) == page + Paged(log, k, limit)
  {
    assert NextIndex(log, 0, from) == n;
    if n < |log| { StandsNext(log, n, PageEnd(log, n, limit)); }
  }

  lemma StandsNext(log: Log, n: nat, m: nat)
    requires WellFormed(log) && n < m <= |log|
    ensures StandsAt(log, NextIndex(log, m, log[m - 1].position), log[m - 1].position)
  {
    forall i | 0 <= i < m ensures log[i].position <= log[m - 1].position {
      PositionsRise(log, i, m - 1);
    }
  }

  /** `scan_child_roots` */
  method ScanChildRoots(log: MemoryLog, parents: set<Uuid>, limit: nat) returns (children: map<Uuid, nat>)
    requires WellFormed(log.events) && limit > 0
    ensures children == Pass(parents, Paged(log.events, 0, limit)).found
  {
    var s := Scan({}, map[]);
    ghost var seen: seq<Event>, n, all := [], 0, Paged(log.events, 0, limit);
    var from := 0;
    FirstPositions(log.events);
    while true
      invariant StandsAt(log.events, n, from) && s == Pass(parents, seen)
      invariant seen + Paged(log.events, n, limit) == all
      decreases |log.events| - n
    {
      var page := log.ReadAll(from, limit);
      NextPage(log.events, n, from, limit, page);
      if page == [] { break; }
      s := VisitPage(parents, s, seen, page);
      from := page[|page| - 1].position;
      n := NextIndex(log.events, PageEnd(log.events, n, limit), from);
      Regroup(seen, page, Paged(log.events, n, limit));
      seen := seen + page;
    }
    assert seen + [] == seen;
    children := s.found;
  }

  lemma Regroup(a: seq<Event>, b: seq<Event>, c: seq<Event>)
    ensures a + (b + c) == a + b + c
  {
  }

  lemma FirstPositions(log: Log)
    requires WellFormed(log)
    ensures 0 < |log| ==> log[0].position > 0
  {
    if 0 < |log| { assert DenseAt(log, 0); }
  }

  method VisitPage(parents: set<Uuid>, s: Scan, ghost read: seq<Event>, page: seq<Event>) returns (r: Scan)
    requires s == Pass(parents, read)
    ensures r == Pass(parents, read + page)
  {
    r := s;
    assert read + page[..0] == read;
    for k := 0 to |page|
      invariant r == Pass(parents, read + page[..k])
    {
      assert (read + page[..k + 1])[..|read| + k] == read + page[..k];
      r := Visit(parents, r, page[k]);
    }
    assert page[..|page|] == page;
  }

  // ── The tree ──────────────────────────────────────────────────────

  /** An event of `p` caused an event of another workflow `w`. */
  ghost predicate Links(log: Log, p: Uuid, w: Uuid) {
    p != w && exists i: nat, j: nat :: Causes(log, i, j) && log[i].workflow == p && log[j].workflow == w
  }

  /** A chain of cross-workflow causation from its first element to its last. */
  ghost predicate Chain(log: Log, path: seq<Uuid>) {
    path != [] && (|path| == 1 || (Chain(log, path[..|path| - 1]) && Links(log, path[|path| - 2], path[|path| - 1])))
  }

  ghost predicate Reachable(log: Log, root: Uuid, w: Uuid) {
    exists path :: Chain(log, path) && path[0] == root && path[|path| - 1] == w
  }

  lemma RootReachable(log: Log, root: Uuid)
    ensures Reachable(log, root, root)
  {
    assert Chain(log, [root]);
  }

  lemma StepReachable(log: Log, root: Uuid, p: Uuid, w: Uuid)
    requires Reachable(log, root, p) && Links(log, p, w)
    ensures Reachable(log, root, w)
  {
    var path :| Chain(log, path) && path[0] == root && path[|path| - 1] == p;
    var longer := path + [w];
    assert longer[..|longer| - 1] == path;
    assert Chain(log, longer);
  }

  /** A child event of a set of workflows is a link out of the set. */
  lemma ChildIsLinked(log: Log, parents: set<Uuid>, w: Uuid, j: nat) returns (p: Uuid)
    requires ChildEvent(parents, log, w, j)
    ensures p in parents && Links(log, p, w)
  {
    var i: nat :| ParentEvent(parents, log, log[j].causation.value, i);
    p := log[i].workflow;
    assert Causes(log, i, j);
  }

  lemma LinkedIsChild(log: Log, parents: set<Uuid>, p: Uuid, w: Uuid) returns (j: nat)
    requires p in parents && w !in parents && Links(log, p, w)
    ensures ChildEvent(parents, log, w, j)
  {
    var i: nat, k: nat :| Causes(log, i, k) && log[i].workflow == p && log[k].workflow == w;
    j := k;
    assert ParentEvent(parents, log, log[k].causation.value, i);
  }

  /** A set with the root and no child roots holds all that is reachable. */
  lemma {:induction false} ClosedHoldsChain(log: Log, settled: set<Uuid>, path: seq<Uuid>)
    requires Chain(log, path) && path[0] in settled
    requires forall w :: ChildRoot(settled, log, w, None)
    ensures path[|path| - 1] in settled
    decreases |path|
  {
    if |path| > 1 {
      var front := path[..|path| - 1];
      ClosedHoldsChain(log, settled, front);
      var p, w := path[|path| - 2], path[|path| - 1];
      assert ChildRoot(settled, log, w, None);
      if w !in settled {
        var j := LinkedIsChild(log, settled, p, w);
      }
    }
  }

  function Workflows(log: Log): set<Uuid> {
    set i | 0 <= i < |log| :: log[i].workflow
  }

  /** A request to settle a workflow from a position. */
  datatype Request = Request(workflow: Uuid, position: nat)

  /** Each workflow at most once, and exactly these. */
  ghost predicate EachOnce(order: seq<Request>, settled: set<Uuid>) {
    && (forall w :: w in settled <==> exists k :: 0 <= k < |order| && order[k].workflow == w)
    && (forall i, j | 0 <= i < j < |order| :: order[i].workflow != order[j].workflow)
  }

  /** Everything found so far is reachable, and what is left to do is either
      queued or will be scanned for. */
  ghost predicate Sound(log: Log, root: Uuid, settled: set<Uuid>, queue: seq<Request>) {
    && (forall w | w in settled :: Reachable(log, root, w))
    && (forall k | 0 <= k < |queue| :: Reachable(log, root, queue[k].workflow))
    && (root in settled || exists k :: 0 <= k < |queue| && queue[k].workflow == root)
    && settled <= Workflows(log) + {root}
    && (forall k | 0 <= k < |queue| :: queue[k].workflow in Workflows(log) + {root})
  }

  lemma ChildrenReachable(log: Log, root: Uuid, settled: set<Uuid>, w: Uuid, p: nat)
    requires (forall v | v in settled :: Reachable(log, root, v)) && ChildRoot(settled, log, w, Some(p))
    ensures Reachable(log, root, w) && w in Workflows(log) && w !in settled
  {
    var j: nat :| ChildEvent(settled, log, w, j) && log[j].position == p;
    var parent := ChildIsLinked(log, settled, w, j);
    StepReachable(log, root, parent, w);
    assert log[j].workflow in Workflows(log);
  }

  predicate InMap(children: map<Uuid, nat>, r: Request) {
    r.workflow in children && r.position == children[r.workflow]
  }

  /** The queue's next entries: the scan's map, in whatever order it yields. */
  method Drain(children: map<Uuid, nat>) returns (queue: seq<Request>)
    ensures forall k | 0 <= k < |queue| :: InMap(children, queue[k])
    ensures children != map[] ==> queue != []
  {
    queue := [];
    var rest := children;
    while rest.Keys != {}
      invariant rest.Keys <= children.Keys
      invariant forall w | w in rest :: rest[w] == children[w]
      invariant forall k | 0 <= k < |queue| :: InMap(children, queue[k])
      invariant queue == [] ==> rest == children
      decreases rest.Keys
    {
      var w :| w in rest.Keys;
      queue := queue + [Request(w, rest[w])];
      rest := rest - {w};
    }
  }

  ghost predicate Closed(log: Log, settled: set<Uuid>) {
    forall w :: ChildRoot(settled, log, w, None)
  }

  ghost predicate AllNew(queue: seq<Request>, settled: set<Uuid>) {
    forall k | 0 <= k < |queue| :: queue[k].workflow !in settled
  }

  /** The workflows of the first `m` calls. */
  function SettledBy(order: seq<Request>, m: nat): set<Uuid>
    requires m <= |order|
  {
    set k | 0 <= k < m :: order[k].workflow
  }

  /** Call `k` waits for a child root of what some scan before it found
      settled, from the furthest position of that child. */
  ghost predicate Scanned(log: Log, order: seq<Request>, k: nat) {
    k < |order| && exists m: nat :: 0 < m <= k && FromScan(log, SettledBy(order, m), order[k])
  }

  ghost predicate FromScan(log: Log, settled: set<Uuid>, r: Request) {
    ChildRoot(settled, log, r.workflow, Some(r.position))
  }

  /** The first call is the caller's, every other one comes from a scan. */
  ghost predicate AllScanned(log: Log, root: Request, order: seq<Request>) {
    order == [] || (order[0] == root && forall k: nat | 0 < k < |order| :: Scanned(log, order, k))
  }

  /** What a queue may hold: the caller's request at first, then the children
      of everything settled when it was filled. */
  ghost predicate Queued(log: Log, root: Request, order: seq<Request>, settled: set<Uuid>, queue: seq<Request>) {
    && settled == SettledBy(order, |order|)
    && if order == [] then queue == [root] else forall k | 0 <= k < |queue| :: FromScan(log, settled, queue[k])
  }

  /** `settle_tree`, `order` being its calls to `settle` one after another, on
      a log whose scan pages (of 1024 events in the program) are clean: it
      terminates having settled exactly the workflows reachable from the root,
      each once and from the furthest position its scan had seen. */
  method SettleTree(log: MemoryLog, root: Request, page: nat) returns (settled: set<Uuid>, order: seq<Request>)
    requires WellFormed(log.events) && CausesPrecede(log.events) && page > 0 && CleanFrom(log.events, 0, page)
    ensures forall w :: w in settled <==> Reachable(log.events, root.workflow, w)
    ensures EachOnce(order, settled)
    ensures order != [] && AllScanned(log.events, root, order)
  {
    settled, order := {}, [];
    var queue := [root];
    RootReachable(log.events, root.workflow);
    assert queue[0].workflow == root.workflow;
    ghost var bound := Workflows(log.events) + {root.workflow};
    while queue != []
      invariant Sound(log.events, root.workflow, settled, queue) && EachOnce(order, settled)
      invariant AllNew(queue, settled) && (queue == [] ==> Closed(log.events, settled))
      invariant AllScanned(log.events, root, order) && Queued(log.events, root, order, settled, queue)
      decreases bound - settled, |queue|
    {
      settled, order := SettleQueue(log.events, root, settled, order, queue);
      queue := Rescan(log, root.workflow, settled, page);
    }
    forall w | Reachable(log.events, root.workflow, w) ensures w in settled {
      var path :| Chain(log.events, path) && path[0] == root.workflow && path[|path| - 1] == w;
      ClosedHoldsChain(log.events, settled, path);
    }
  }

  /** The rescan: the child roots not settled yet, none when the set is closed. */
  method Rescan(log: MemoryLog, ghost root: Uuid, settled: set<Uuid>, page: nat) returns (queue: seq<Request>)
    requires WellFormed(log.events) && CausesPrecede(log.events) && page > 0 && CleanFrom(log.events, 0, page)
    requires Sound(log.events, root, settled, [])
    ensures Sound(log.events, root, settled, queue) && AllNew(queue, settled)
    ensures queue == [] ==> Closed(log.events, settled)
    ensures forall k | 0 <= k < |queue| :: FromScan(log.events, settled, queue[k])
  {
    var children := ScanChildRoots(log, settled, page);
    AllChildRoots(log.events, settled, page);
    queue := Drain(children);
    QueueIsSound(log.events, root, settled, children, queue);
  }

  ghost predicate RootsFound(log: Log, settled: set<Uuid>, children: map<Uuid, nat>) {
    forall w :: ChildRoot(settled, log, w, Entry(children, w))
  }

  lemma AllChildRoots(log: Log, settled: set<Uuid>, page: nat)
    requires WellFormed(log) && CausesPrecede(log) && page > 0 && CleanFrom(log, 0, page)
    ensures RootsFound(log, settled, Pass(settled, Paged(log, 0, page)).found)
  {
    ScanIsComplete(log, 0, page);
    assert log[0..] == log;
    forall w ensures ChildRoot(settled, log, w, Entry(Pass(settled, log).found, w)) {
      PassIsChildRoots(settled, log, w);
    }
  }

  lemma QueueIsSound(log: Log, root: Uuid, settled: set<Uuid>, children: map<Uuid, nat>, queue: seq<Request>)
    requires RootsFound(log, settled, children) && Sound(log, root, settled, [])
    requires forall k | 0 <= k < |queue| :: InMap(children, queue[k])
    requires children != map[] ==> queue != []
    ensures Sound(log, root, settled, queue) && AllNew(queue, settled) && (queue == [] ==> Closed(log, settled))
    ensures forall k | 0 <= k < |queue| :: FromScan(log, settled, queue[k])
  {
    forall k | 0 <= k < |queue|
      ensures Reachable(log, root, queue[k].workflow) && queue[k].workflow in Workflows(log)
      ensures queue[k].workflow !in settled && FromScan(log, settled, queue[k])
    {
      var w := queue[k].workflow;
      assert Entry(children, w) == Some(children[w]);
      ChildrenReachable(log, root, settled, w, children[w]);
    }
    if queue == [] {
      forall w ensures ChildRoot(settled, log, w, None) {
        assert Entry(children, w) == None;
      }
    }
  }

  /** What the inner loop has done when `todo[..i]` is left on the queue. */
  ghost predicate Emptying(log: Log, root: Request, done: seq<Request>, before: set<Uuid>, todo: seq<Request>, i: nat,
      settled: set<Uuid>, order: seq<Request>) {
    && i <= |todo| && Sound(log, root.workflow, settled, todo[..i]) && EachOnce(order, settled)
    && settled == SettledBy(order, |order|) && AllScanned(log, root, order) && done <= order
    && (done == [] && i > 0 ==> order == [])
    && before <= settled && (i < |todo| ==> todo[|todo| - 1].workflow in settled)
  }

  /** The inner loop: pop, skip what is settled, settle the rest. */
  method SettleQueue(ghost log: Log, ghost root: Request, before: set<Uuid>, done: seq<Request>, todo: seq<Request>)
    returns (settled: set<Uuid>, order: seq<Request>)
    requires Sound(log, root.workflow, before, todo) && EachOnce(done, before) && todo != [] && AllNew(todo, before)
    requires AllScanned(log, root, done) && Queued(log, root, done, before, todo)
    ensures Sound(log, root.workflow, settled, []) && EachOnce(order, settled) && before < settled
    ensures order != [] && AllScanned(log, root, order) && settled == SettledBy(order, |order|)
  {
    settled, order := before, done;
    var i := |todo|;
    assert todo[..i] == todo;
    while i > 0
      invariant Emptying(log, root, done, before, todo, i, settled, order)
    {
      i := i - 1;
      PopOne(log, root, done, before, todo, i, settled, order);
      if todo[i].workflow !in settled {
        order := order + [todo[i]];
      }
      settled := settled + {todo[i].workflow};
    }
    Emptied(log, root, done, before, todo, settled, order);
  }

  lemma Emptied(log: Log, root: Request, done: seq<Request>, before: set<Uuid>, todo: seq<Request>,
      settled: set<Uuid>, order: seq<Request>)
    requires Emptying(log, root, done, before, todo, 0, settled, order) && todo != [] && AllNew(todo, before)
    ensures Sound(log, root.workflow, settled, []) && before < settled && order != []
  {
    assert todo[..0] == [];
    var last := todo[|todo| - 1].workflow;
    assert last in settled && last !in before;
  }

  lemma PopOne(log: Log, root: Request, done: seq<Request>, before: set<Uuid>, todo: seq<Request>, i: nat,
      settled: set<Uuid>, order: seq<Request>)
    requires i < |todo| && Queued(log, root, done, before, todo)
    requires Emptying(log, root, done, before, todo, i + 1, settled, order)
    ensures var r := todo[i];
            var order' := if r.workflow in settled then order else order + [r];
            Emptying(log, root, done, before, todo, i, settled + {r.workflow}, order')
  {
    Popped(log, root.workflow, settled, todo[..i + 1]);
    assert todo[..i + 1][..i] == todo[..i];
    if todo[i].workflow in settled {
      assert settled + {todo[i].workflow} == settled;
    } else {
      Settled(order, settled, todo[i]);
      OneMoreScanned(log, root, done, before, todo, order, i);
    }
  }

  /** Taking the last request off the queue and into the set loses nothing. */
  lemma Popped(log: Log, root: Uuid, settled: set<Uuid>, queue: seq<Request>)
    requires Sound(log, root, settled, queue) && queue != []
    ensures Sound(log, root, settled + {queue[|queue| - 1].workflow}, queue[..|queue| - 1])
  {
  }

  lemma SameStart(a: seq<Request>, b: seq<Request>, m: nat)
    requires m <= |a| && m <= |b| && a[..m] == b[..m]
    ensures SettledBy(a, m) == SettledBy(b, m)
  {
    assert forall k | 0 <= k < m :: a[k] == a[..m][k] && b[k] == b[..m][k];
  }

  lemma OneMoreScanned(log: Log, root: Request, done: seq<Request>, before: set<Uuid>, todo: seq<Request>,
      order: seq<Request>, i: nat)
    requires Queued(log, root, done, before, todo) && i < |todo| && done <= order
    requires AllScanned(log, root, order) && (done == [] ==> order == [])
    ensures AllScanned(log, root, order + [todo[i]])
  {
    var order' := order + [todo[i]];
    forall k: nat | 0 < k < |order'| ensures Scanned(log, order', k) {
      if k < |order| {
        assert Scanned(log, order, k);
        var m: nat :| 0 < m <= k && FromScan(log, SettledBy(order, m), order[k]);
        SameStart(order', order, m);
      } else {
        SameStart(order', done, |done|);
        assert FromScan(log, SettledBy(order', |done|), order'[k]);
      }
    }
  }

  lemma Settled(order: seq<Request>, settled: set<Uuid>, r: Request)
    requires EachOnce(order, settled) && r.workflow !in settled
    ensures EachOnce(order + [r], settled + {r.workflow})
    ensures settled == SettledBy(order, |order|) ==>
              settled + {r.workflow} == SettledBy(order + [r], |order| + 1)
  {
    var order' := order + [r];
    forall w ensures w in settled + {r.workflow} <==> exists k :: 0 <= k < |order'| && order'[k].workflow == w {
      if w in settled {
        var k :| 0 <= k < |order| && order[k].workflow == w;
        assert order'[k].workflow == w;
      }
      assert order'[|order|].workflow == r.workflow;
    }
    forall i | 0 <= i < |order| ensures order[i].workflow in settled {
    }
  }
}
