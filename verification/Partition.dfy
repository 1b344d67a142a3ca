/** How a round divides its instances among workers and its workers among statistics shards. */
module Partition {
  import opened Intervals

  // ----- instances

  /** Where worker `wi` starts: Go evaluates `wi*scale/concurrency` from the left. */
  function Offset(wi: nat, scale: nat, concurrency: nat): nat
    requires concurrency > 0
  {
    wi * scale / concurrency
  }

  /** The instance that worker `wi` simulates in step `j`. */
  function Instance(j: nat, wi: nat, scale: nat, concurrency: nat): nat
    requires concurrency > 0
  {
    j + Offset(wi, scale, concurrency)
  }

  /** The instances that each worker simulates. */
  function PerWorker(scale: nat, concurrency: nat): (q: nat)
    requires concurrency > 0
    ensures q == scale / concurrency
  {
    scale / concurrency
  }

  lemma DivideSum(a: nat, b: nat, d: nat)
    requires d > 0
    ensures (a + b) / d >= a / d + b / d
  {
    Product(d, a / d, b / d);
    AtLeast(a + b, d, a / d + b / d);
  }

  lemma Product(d: nat, p: nat, q: nat)
    ensures d * (p + q) == d * p + d * q
  {
  }

  lemma AtLeast(x: nat, d: nat, q: nat)
    requires d > 0 && x >= d * q
    ensures x / d >= q
  {
    assert x < d * (x / d) + d;
    Cancel(d, q, x / d);
  }

  lemma Cancel(d: nat, a: nat, b: nat)
    requires d * a < d * b + d
    ensures a <= b
  {
    if a > b {
      Monotone(d, b + 1, a);
    }
  }

  lemma Monotone(d: nat, a: nat, b: nat)
    requires a <= b
    ensures d * a <= d * b
  {
  }

  lemma Exact(d: nat, q: nat)
    requires d > 0
    ensures (d * q) / d == q && (d * q) % d == 0
  {
    AtLeast(d * q, d, q);
    Cancel(d, d * q / d, q);
  }

  /** Consecutive offsets are at least `scale/concurrency` apart. */
  lemma OffsetStep(wi: nat, scale: nat, concurrency: nat)
    requires concurrency > 0
    ensures Offset(wi + 1, scale, concurrency) >= Offset(wi, scale, concurrency) + scale / concurrency
  {
    assert (wi + 1) * scale == wi * scale + scale;
    DivideSum(wi * scale, scale, concurrency);
  }

  lemma {:induction false} OffsetApart(wi: nat, wj: nat, scale: nat, concurrency: nat)
    requires concurrency > 0 && wi < wj
    ensures Offset(wj, scale, concurrency) >= Offset(wi, scale, concurrency) + scale / concurrency
    decreases wj
  {
    OffsetStep(wj - 1, scale, concurrency);
    if wi < wj - 1 {
      OffsetApart(wi, wj - 1, scale, concurrency);
    }
  }

  /** Every index is an instance: the program's guard against indices past the end never fires. */
  lemma InstanceInRange(j: nat, wi: nat, scale: nat, concurrency: nat)
    requires concurrency > 0 && wi < concurrency && j < scale / concurrency
    ensures Instance(j, wi, scale, concurrency) < scale
  {
    OffsetApart(wi, concurrency, scale, concurrency);
    Exact(concurrency, scale);
  }

  /** No instance is simulated twice. */
  lemma InstancesDisjoint(j: nat, wi: nat, j': nat, wi': nat, scale: nat, concurrency: nat)
    requires concurrency > 0 && j < scale / concurrency && j' < scale / concurrency
    requires Instance(j, wi, scale, concurrency) == Instance(j', wi', scale, concurrency)
    ensures j == j' && wi == wi'
  {
    if wi < wi' {
      OffsetApart(wi, wi', scale, concurrency);
    } else if wi' < wi {
      OffsetApart(wi', wi, scale, concurrency);
    }
  }

  ghost predicate Visited(idx: nat, scale: nat, concurrency: nat)
    requires concurrency > 0
  {
    exists j: nat, wi: nat ::
      && j < scale / concurrency && wi < concurrency
      && idx == Instance(j, wi, scale, concurrency)
  }

  ghost function VisitedSet(scale: nat, concurrency: nat): set<nat>
    requires concurrency > 0
  {
    set idx: nat | idx < scale && Visited(idx, scale, concurrency)
  }

  /** What shares of `q` consecutive numbers cover together. */
  function Covered(starts: seq<nat>, q: nat): set<nat> {
    if starts == [] then {}
    else
      var start := starts[|starts| - 1];
      Covered(starts[..|starts| - 1], q) + Interval(start, start + q)
  }

  predicate Apart(starts: seq<nat>, q: nat) {
    forall a, b | 0 <= a < b < |starts| :: starts[a] + q <= starts[b]
  }

  lemma {:induction false} CoveredIff(starts: seq<nat>, q: nat, idx: nat)
    ensures idx in Covered(starts, q) <==> exists wi: nat :: wi < |starts| && starts[wi] <= idx < starts[wi] + q
  {
    if starts != [] {
      var n := |starts| - 1;
      CoveredIff(starts[..n], q, idx);
      IntervalSize(starts[n], starts[n] + q);
      if idx in Covered(starts[..n], q) {
        var wi: nat :| wi < n && starts[..n][wi] <= idx < starts[..n][wi] + q;
        assert starts[wi] <= idx < starts[wi] + q;
      }
      if wi: nat :| wi < n && starts[wi] <= idx < starts[wi] + q {
        assert starts[..n][wi] == starts[wi];
      }
    }
  }

  lemma LastShareIsNew(starts: seq<nat>, q: nat)
    requires Apart(starts, q) && starts != []
    ensures var n := |starts| - 1;
            Covered(starts[..n], q) !! Interval(starts[n], starts[n] + q)
  {
    var n := |starts| - 1;
    forall idx: nat | idx in Covered(starts[..n], q)
      ensures idx !in Interval(starts[n], starts[n] + q)
    {
      CoveredIff(starts[..n], q, idx);
      var wi: nat :| wi < n && starts[..n][wi] <= idx < starts[..n][wi] + q;
      assert starts[wi] + q <= starts[n];
      IntervalSize(starts[n], starts[n] + q);
    }
  }

  lemma {:induction false} CoveredSize(starts: seq<nat>, q: nat)
    requires Apart(starts, q)
    ensures |Covered(starts, q)| == |starts| * q
  {
    if starts != [] {
      var n := |starts| - 1;
      CoveredSize(starts[..n], q);
      LastShareIsNew(starts, q);
      OneShareMore(Covered(starts[..n], q), starts[n], q, n);
    }
  }

  lemma OneShareMore(front: set<nat>, start: nat, q: nat, n: nat)
    requires |front| == n * q && front !! Interval(start, start + q)
    ensures |front + Interval(start, start + q)| == (n + 1) * q
  {
    IntervalSize(start, start + q);
    assert (n + 1) * q == n * q + q;
  }

  ghost function Starts(scale: nat, concurrency: nat): seq<nat>
    requires concurrency > 0
  {
    seq(concurrency, wi requires 0 <= wi => Offset(wi, scale, concurrency))
  }

  lemma StartsApart(scale: nat, concurrency: nat)
    requires concurrency > 0
    ensures Apart(Starts(scale, concurrency), scale / concurrency)
  {
    forall a, b | 0 <= a < b < concurrency
      ensures Offset(a, scale, concurrency) + scale / concurrency <= Offset(b, scale, concurrency)
    {
      OffsetApart(a, b, scale, concurrency);
    }
  }

  lemma VisitedIsCovered(idx: nat, scale: nat, concurrency: nat)
    requires concurrency > 0
    ensures idx in VisitedSet(scale, concurrency)
       <==> idx in Covered(Starts(scale, concurrency), scale / concurrency)
  {
    var starts, q := Starts(scale, concurrency), scale / concurrency;
    CoveredIff(starts, q, idx);
    if Visited(idx, scale, concurrency) {
      var j: nat, wi: nat :| j < q && wi < concurrency && idx == Instance(j, wi, scale, concurrency);
      InstanceInRange(j, wi, scale, concurrency);
      assert starts[wi] <= idx < starts[wi] + q;
    }
    if wi: nat :| wi < concurrency && starts[wi] <= idx < starts[wi] + q {
      assert idx == Instance(idx - starts[wi], wi, scale, concurrency);
      InstanceInRange(idx - starts[wi], wi, scale, concurrency);
    }
  }

  /** However the scale and the concurrency relate, exactly `concurrency * (scale / concurrency)` instances
      are simulated. */
  lemma VisitedCount(scale: nat, concurrency: nat)
    requires concurrency > 0
    ensures |VisitedSet(scale, concurrency)| == concurrency * (scale / concurrency)
  {
    StartsApart(scale, concurrency);
    CoveredSize(Starts(scale, concurrency), scale / concurrency);
    forall idx: nat
      ensures idx in VisitedSet(scale, concurrency)
         <==> idx in Covered(Starts(scale, concurrency), scale / concurrency)
    {
      VisitedIsCovered(idx, scale, concurrency);
    }
    assert VisitedSet(scale, concurrency) == Covered(Starts(scale, concurrency), scale / concurrency);
  }

  lemma SameSize<T>(a: set<T>, b: set<T>)
    requires a <= b && |a| == |b|
    ensures a == b
  {
    assert |b - a| == |b| - |a|;
  }

  lemma DividesIff(scale: nat, concurrency: nat)
    requires concurrency > 0
    ensures concurrency * (scale / concurrency) == scale <==> scale % concurrency == 0
  {
  }

  lemma FullIff(visited: set<nat>, scale: nat)
    requires forall idx | idx in visited :: idx < scale
    ensures (forall idx: nat | idx < scale :: idx in visited) <==> |visited| == scale
  {
    var all := Interval(0, scale);
    IntervalSize(0, scale);
    assert visited <= all;
    if forall idx: nat | idx < scale :: idx in visited {
      assert visited == all;
    } else if |visited| == scale {
      SameSize(visited, all);
    }
  }

  /** Every instance is simulated exactly when the concurrency divides the scale, which is what
      validation demands. */
  lemma AllVisitedIffDivides(scale: nat, concurrency: nat)
    requires concurrency > 0
    ensures (forall idx: nat | idx < scale :: Visited(idx, scale, concurrency)) <==> scale % concurrency == 0
  {
    VisitedCount(scale, concurrency);
    DividesIff(scale, concurrency);
    var visited := VisitedSet(scale, concurrency);
    FullIff(visited, scale);
    assert forall idx: nat | idx < scale :: idx in visited <==> Visited(idx, scale, concurrency);
  }
}
