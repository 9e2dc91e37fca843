/** Aggregators and the meaning of a fold: the reference definitions every
    cached, repaired, restored or merged fold is compared with. */
module Folding {
  import opened JsonValue
  import opened EventLog

  /** Type-erased aggregate state. */
  type State(!new, ==, 0)

  /** One piece of aggregate state: an aggregate type and an instance id. */
  datatype Key = Key(aggType: string, id: Uuid)

  /** A registered `(aggregate, fact kind)` pair. A non-empty `subject` makes
      the aggregate stream-aligned (restorable); an empty one is fan-in. */
  datatype Aggregator = Aggregator(
    kind: string,
    aggType: string,
    subject: string,
    eventSubject: string,
    customId: bool,
    idOf: Payload -> Option<Uuid>,
    apply: (State, Payload) -> State,
    initial: State)
  {
    predicate Aligned() {
      subject != ""
    }

    /** This aggregator folds `e` into `key`. */
    predicate Hits(key: Key, e: Event) {
      aggType == key.aggType && kind == e.kind && idOf(e.payload) == Some(key.id)
    }
  }

  type Aggregators = seq<Aggregator>

  /** `find_first_by_aggregate_type` */
  function FirstOfType(aggs: Aggregators, t: string): (r: Option<Aggregator>)
    ensures r.Some? ==> r.value in aggs && r.value.aggType == t
    ensures r.None? ==> forall a | a in aggs :: a.aggType != t
  {
    if aggs == [] then None
    else if aggs[0].aggType == t then Some(aggs[0])
    else FirstOfType(aggs[1..], t)
  }

  /** The aggregator of type `t` that folds facts of `kind`. */
  function Matching(aggs: Aggregators, t: string, kind: string): (r: Option<Aggregator>)
    ensures r.Some? ==> r.value in aggs && r.value.aggType == t && r.value.kind == kind
    ensures r.None? ==> forall a | a in aggs :: !(a.aggType == t && a.kind == kind)
  {
    if aggs == [] then None
    else if aggs[0].aggType == t && aggs[0].kind == kind then Some(aggs[0])
    else Matching(aggs[1..], t, kind)
  }

  predicate Registered(aggs: Aggregators, t: string) {
    FirstOfType(aggs, t).Some?
  }

  predicate AlignedType(aggs: Aggregators, t: string) {
    Registered(aggs, t) && FirstOfType(aggs, t).value.Aligned()
  }

  function Initial(aggs: Aggregators, t: string): State
    requires Registered(aggs, t)
  {
    FirstOfType(aggs, t).value.initial
  }

  /** The stream an aligned key is folded from. */
  function StreamOf(aggs: Aggregators, key: Key): StreamId
    requires Registered(aggs, key.aggType)
  {
    StreamId(FirstOfType(aggs, key.aggType).value.subject, key.id)
  }

  /** Aggregators of one type share the aggregate's subject and default. */
  ghost predicate SameHome(a: Aggregator, b: Aggregator) {
    a.aggType == b.aggType ==> a.subject == b.subject && a.initial == b.initial
  }

  /** At most one aggregator of a type folds a given kind. */
  ghost predicate SamePair(a: Aggregator, b: Aggregator) {
    a.aggType == b.aggType && a.kind == b.kind
  }

  ghost predicate WellFormedAggs(aggs: Aggregators) {
    && (forall i: nat, j: nat {:trigger SameHome(aggs[i], aggs[j])} | i < |aggs| && j < |aggs| ::
          SameHome(aggs[i], aggs[j]))
    && (forall i: nat, j: nat {:trigger SamePair(aggs[i], aggs[j])} | i < |aggs| && j < |aggs| ::
          SamePair(aggs[i], aggs[j]) ==> i == j)
  }

  /** A restorable aggregate folds exactly its own stream. */
  ghost predicate AlignedWith(a: Aggregator, e: Event) {
    a.Aligned() && a.kind == e.kind ==>
      e.stream.category == a.subject && a.idOf(e.payload) == Some(e.stream.subject)
  }

  ghost predicate Compatible(aggs: Aggregators, log: Log) {
    forall a, e {:trigger AlignedWith(a, e)} | a in aggs && e in log :: AlignedWith(a, e)
  }

  /** One fold step of type `t`; a kind the type does not fold is identity. */
  function Step(aggs: Aggregators, t: string, s: State, e: Event): State {
    match Matching(aggs, t, e.kind)
    case None => s
    case Some(a) => a.apply(s, e.payload)
  }

  /** `fold(stream[..])`: the fold of a stream history from the default. */
  function PrefixFold(aggs: Aggregators, t: string, h: seq<Event>): State
    requires Registered(aggs, t)
  {
    if h == [] then Initial(aggs, t)
    else Step(aggs, t, PrefixFold(aggs, t, h[..|h| - 1]), h[|h| - 1])
  }

  /** `fold(log[..])` for one key: every event some aggregator sends to it. */
  function KeyFold(aggs: Aggregators, key: Key, log: Log): State
    requires Registered(aggs, key.aggType)
  {
    if log == [] then Initial(aggs, key.aggType)
    else
      var s := KeyFold(aggs, key, log[..|log| - 1]);
      var e := log[|log| - 1];
      if Targets(aggs, key, e) then Step(aggs, key.aggType, s, e) else s
  }

  /** Some aggregator folds `e` into `key`. */
  predicate Targets(aggs: Aggregators, key: Key, e: Event) {
    var a := Matching(aggs, key.aggType, e.kind);
    a.Some? && a.value.idOf(e.payload) == Some(key.id)
  }

  lemma HitIsTheMatch(aggs: Aggregators, a: Aggregator, key: Key, e: Event)
    requires WellFormedAggs(aggs) && a in aggs && a.Hits(key, e)
    ensures Matching(aggs, key.aggType, e.kind) == Some(a)
    ensures Targets(aggs, key, e) && Registered(aggs, key.aggType)
    ensures Initial(aggs, key.aggType) == a.initial
    ensures FirstOfType(aggs, key.aggType).value.subject == a.subject
  {
    var m := Matching(aggs, key.aggType, e.kind).value;
    var i :| 0 <= i < |aggs| && aggs[i] == a;
    var j :| 0 <= j < |aggs| && aggs[j] == m;
    assert SamePair(aggs[i], aggs[j]);
    MatchIsAtHome(aggs, key.aggType, e.kind);
  }

  /** For an aligned aggregate, folding the log and folding its own stream are
      the same thing. */
  lemma {:induction false} KeyFoldIsStreamFold(aggs: Aggregators, key: Key, log: Log)
    requires WellFormedAggs(aggs) && Compatible(aggs, log) && AlignedType(aggs, key.aggType)
    ensures KeyFold(aggs, key, log)
         == PrefixFold(aggs, key.aggType, Stream(log, StreamOf(aggs, key)))
  {
    if log != [] {
      var init, e := log[..|log| - 1], log[|log| - 1];
      KeyFoldIsStreamFold(aggs, key, init);
      StreamFoldStep(aggs, key, Stream(init, StreamOf(aggs, key)), e);
    }
  }

  /** One event of the log, seen by an aligned key. */
  lemma StreamFoldStep(aggs: Aggregators, key: Key, h: seq<Event>, e: Event)
    requires WellFormedAggs(aggs) && AlignedType(aggs, key.aggType) && forall a | a in aggs :: AlignedWith(a, e)
    ensures var s := PrefixFold(aggs, key.aggType, h);
            if e.stream == StreamOf(aggs, key) then
              && PrefixFold(aggs, key.aggType, h + [e]) == Step(aggs, key.aggType, s, e)
              && (Targets(aggs, key, e) || Step(aggs, key.aggType, s, e) == s)
            else
              !Targets(aggs, key, e)
  {
    assert (h + [e])[..|h|] == h;
    var m := Matching(aggs, key.aggType, e.kind);
    if m.Some? {
      assert AlignedWith(m.value, e);
      MatchIsAtHome(aggs, key.aggType, e.kind);
    }
  }

  lemma MatchIsAtHome(aggs: Aggregators, t: string, kind: string)
    requires WellFormedAggs(aggs) && Matching(aggs, t, kind).Some?
    ensures Registered(aggs, t)
    ensures Matching(aggs, t, kind).value.subject == FirstOfType(aggs, t).value.subject
    ensures Matching(aggs, t, kind).value.initial == FirstOfType(aggs, t).value.initial
  {
    var m, first := Matching(aggs, t, kind).value, FirstOfType(aggs, t).value;
    var j :| 0 <= j < |aggs| && aggs[j] == m;
    var k :| 0 <= k < |aggs| && aggs[k] == first;
    assert SameHome(aggs[j], aggs[k]);
  }

  /** A stretch of events the type does not fold leaves its fold unchanged. */
  lemma {:induction false} ForeignStretch(aggs: Aggregators, t: string, h: seq<Event>, n: nat)
    requires Registered(aggs, t) && n <= |h|
    requires forall r | n <= r < |h| :: Matching(aggs, t, h[r].kind).None?
    ensures PrefixFold(aggs, t, h) == PrefixFold(aggs, t, h[..n])
  {
    if n < |h| {
      var h' := h[..|h| - 1];
      ForeignStretch(aggs, t, h', n);
      assert h'[..n] == h[..n];
    } else {
      assert h[..n] == h;
    }
  }

  lemma PrefixFoldStep(aggs: Aggregators, t: string, h: seq<Event>, n: nat)
    requires Registered(aggs, t) && n < |h|
    ensures PrefixFold(aggs, t, h[..n + 1]) == Step(aggs, t, PrefixFold(aggs, t, h[..n]), h[n])
  {
    assert h[..n + 1][..n] == h[..n];
  }
}
