/** Counting folds: how often an aggregate folds along a history, and
    aggregates whose state shows it. They tell two folds apart that a less
    observant aggregate could confuse. */
module Counting {
  import opened EventLog
  import opened Folding

  /** How many events of a history the aggregate folds. */
  function Matches(aggs: Aggregators, t: string, h: seq<Event>): nat {
    if h == [] then 0
    else Matches(aggs, t, h[..|h| - 1]) + if Matching(aggs, t, h[|h| - 1].kind).Some? then 1 else 0
  }

  lemma {:induction false} MatchesSplit(aggs: Aggregators, t: string, h: seq<Event>, m: nat, n: nat)
    requires m <= n <= |h|
    ensures Matches(aggs, t, h[..n]) == Matches(aggs, t, h[..m]) + Matches(aggs, t, h[m..n])
    decreases n - m
  {
    if m == n {
      assert h[m..n] == [];
    } else {
      MatchesSplit(aggs, t, h, m, n - 1);
      assert h[..n][..n - 1] == h[..n - 1];
      assert h[m..n][..n - 1 - m] == h[m..n - 1];
    }
  }

  lemma {:induction false} NoMatches(aggs: Aggregators, t: string, h: seq<Event>, m: nat, n: nat)
    requires m <= n <= |h|
    ensures Matches(aggs, t, h[m..n]) == 0 <==> forall j | m <= j < n :: Matching(aggs, t, h[j].kind).None?
    decreases n - m
  {
    if m < n {
      NoMatches(aggs, t, h, m, n - 1);
      assert h[m..n][..n - 1 - m] == h[m..n - 1];
    }
  }

  lemma FoldsAgree(aggs: Aggregators, t: string, h: seq<Event>, m: nat, n: nat)
    requires Registered(aggs, t) && m <= n <= |h| && Matches(aggs, t, h[m..n]) == 0
    ensures PrefixFold(aggs, t, h[..n]) == PrefixFold(aggs, t, h[..m])
  {
    NoMatches(aggs, t, h, m, n);
    ForeignStretch(aggs, t, h[..n], m);
    assert h[..n][..m] == h[..m];
  }

  /** An aggregate whose every fold shows in its state. */
  ghost predicate CountsFolds(aggs: Aggregators, t: string, size: State -> nat) {
    forall a, s, p | a in aggs && a.aggType == t :: size(a.apply(s, p)) == size(s) + 1
  }

  lemma {:induction false} CountingFold(aggs: Aggregators, t: string, size: State -> nat, h: seq<Event>)
    requires Registered(aggs, t) && CountsFolds(aggs, t, size)
    ensures size(PrefixFold(aggs, t, h)) == size(Initial(aggs, t)) + Matches(aggs, t, h)
  {
    if h != [] { CountingFold(aggs, t, size, h[..|h| - 1]); }
  }
}
