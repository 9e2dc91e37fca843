/** The smallest observant aggregate: one that changes between two states with
    every event, and the stream it folds. Its concrete runs show what the
    results about failures are about. */
module Toggle {
  import opened JsonValue
  import opened EventLog
  import opened Folding
  import opened RepairSpec

  /** One aggregate that changes between two states with every event, and the
      stream it folds. */
  datatype Scene = Scene(kind: string, t: string, subject: string, id: Uuid, a: State, b: State) {
    predicate Ok() {
      subject != "" && a != b
    }

    function Flip(s: State): State {
      if s == a then b else a
    }

    function Aggs(): Aggregators {
      [Aggregator(kind, t, subject, subject, false, (p: Payload) => Some(id), (s, p: Payload) => Flip(s), a)]
    }

    function Key(): Key {
      Folding.Key.Key(t, id)
    }

    function Home(): StreamId {
      StreamId(subject, id)
    }

    function Fact(n: nat): Event {
      Event(Home(), n, n + 1, kind, Null, n, 0, None)
    }

    function Facts(n: nat): Log {
      seq(n, (i: nat) => Fact(i))
    }

    function After(n: nat): State {
      if n % 2 == 0 then a else b
    }
  }

  lemma {:induction false} SceneStream(x: Scene, n: nat)
    ensures Stream(x.Facts(n), x.Home()) == x.Facts(n)
  {
    if n > 0 {
      SceneStream(x, n - 1);
      assert x.Facts(n)[..n - 1] == x.Facts(n - 1);
      assert x.Facts(n) == x.Facts(n - 1) + [x.Fact(n - 1)];
    } else {
      assert x.Facts(0) == [];
    }
  }

  lemma SceneIsSane(x: Scene, n: nat)
    requires x.Ok()
    ensures Sane(x.Aggs(), x.Facts(n)) && AlignedType(x.Aggs(), x.t) && StreamOf(x.Aggs(), x.Key()) == x.Home()
    ensures Initial(x.Aggs(), x.t) == x.a
  {
    var log := x.Facts(n);
    forall i: nat | i < n ensures DenseAt(log, i) {
      assert log[..i] == x.Facts(i);
      SceneStream(x, i);
    }
    forall i: nat, j: nat | i < j < n ensures Follows(log[i], log[j]) {
    }
  }

  lemma {:induction false} SceneFold(x: Scene, n: nat)
    requires x.Ok()
    ensures Registered(x.Aggs(), x.t) && PrefixFold(x.Aggs(), x.t, x.Facts(n)) == x.After(n)
  {
    SceneIsSane(x, n);
    if n > 0 {
      SceneFold(x, n - 1);
      assert x.Facts(n)[..n - 1] == x.Facts(n - 1);
      assert Matching(x.Aggs(), x.t, x.kind) == Some(x.Aggs()[0]);
    } else {
      assert x.Facts(0) == [];
    }
  }
}
