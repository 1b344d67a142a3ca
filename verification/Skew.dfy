/** Per-instance volume: the log-normal multipliers, their normalisation, and the rounding of the
    number of records an instance emits.  `float64` is modelled by `real`, and `exp` by an arbitrary
    function that is positive. */
module Skew {
  import opened Rand
  import opened Records

  /** Go's conversion of a float to an int drops the fraction. */
  function Truncate(x: real): int {
    if x >= 0.0 then x.Floor else -(-x).Floor
  }

  /** `math.Round`: to the nearest integer, halves away from zero. */
  function Round(x: real): int {
    if x >= 0.0 then (x + 0.5).Floor else -(-x + 0.5).Floor
  }

  /** The records that instance `idx` emits in an interval, from the scenario's base count. */
  function InstanceLogs(base: int, multipliers: Option<seq<real>>, idx: nat): int
    requires multipliers.Some? ==> idx < |multipliers.value|
  {
    if multipliers.None? then base else Skewed(base, multipliers.value[idx])
  }

  function Skewed(base: int, multiplier: real): int {
    var n := Round(base as real * multiplier);
    if n < 1 && base > 0 then 1 else n
  }

  /** A scenario that emits at all emits at least one record from every instance. */
  lemma EveryInstanceEmits(base: int, multipliers: Option<seq<real>>, idx: nat)
    requires multipliers.Some? ==> idx < |multipliers.value|
    ensures base > 0 ==> InstanceLogs(base, multipliers, idx) >= 1
  {
  }

  // ----- building the multipliers

  function Total(xs: seq<real>): real {
    if xs == [] then 0.0 else Total(xs[..|xs| - 1]) + xs[|xs| - 1]
  }

  ghost predicate Positive(f: real -> real) {
    forall x :: f(x) > 0.0
  }

  predicate AllPositive(xs: seq<real>) {
    forall i | 0 <= i < |xs| :: xs[i] > 0.0
  }

  function Normals(n: nat): seq<Call> {
    seq(n, _ => CallNorm)
  }

  function AfterNormals(rng: Rng, n: nat): Rng {
    rng.(calls := rng.calls + Normals(n))
  }

  function LogNormal(sigma: real, z: real, exp: real -> real): real {
    exp(sigma * z)
  }

  /** The log-normal value that the normal draw number `i` gives. */
  function RawMultiplier(rng: Rng, sigma: real, exp: real -> real, i: nat): real {
    LogNormal(sigma, AfterNormals(rng, i).Norm().0, exp)
  }

  function RawMultipliers(rng: Rng, scale: nat, sigma: real, exp: real -> real): seq<real> {
    seq(scale, i requires 0 <= i => RawMultiplier(rng, sigma, exp, i))
  }

  function Mean(xs: seq<real>): real
    requires xs != []
  {
    Total(xs) / |xs| as real
  }

  function Normalised(xs: seq<real>): seq<real>
    requires xs != [] && Mean(xs) != 0.0
  {
    seq(|xs|, i requires 0 <= i < |xs| => xs[i] / Mean(xs))
  }

  lemma {:induction false} TotalPositive(xs: seq<real>)
    requires xs != [] && AllPositive(xs)
    ensures Total(xs) > 0.0 && Mean(xs) > 0.0
  {
    if |xs| > 1 {
      TotalPositive(xs[..|xs| - 1]);
    }
    Quotient(Total(xs), |xs| as real);
  }

  lemma {:induction false} TotalScaled(xs: seq<real>, ys: seq<real>, c: real)
    requires c != 0.0 && |xs| == |ys|
    requires forall i | 0 <= i < |xs| :: ys[i] == xs[i] / c
    ensures Total(ys) == Total(xs) / c
  {
    if xs != [] {
      TotalScaled(xs[..|xs| - 1], ys[..|ys| - 1], c);
    }
  }

  lemma Quotient(a: real, b: real)
    requires a > 0.0 && b > 0.0
    ensures a / b > 0.0 && a / (a / b) == b
  {
  }

  /** Normalised multipliers are positive and have mean one. */
  lemma NormalisedMean(xs: seq<real>)
    requires xs != [] && AllPositive(xs)
    ensures Mean(xs) > 0.0
    ensures AllPositive(Normalised(xs)) && Total(Normalised(xs)) == |xs| as real
  {
    TotalPositive(xs);
    var ys := Normalised(xs);
    TotalScaled(xs, ys, Mean(xs));
    Quotient(Total(xs), |xs| as real);
    forall i | 0 <= i < |ys|
      ensures ys[i] > 0.0
    {
      Quotient(xs[i], Mean(xs));
    }
  }

  /** Each normalised value is in proportion to its own. */
  lemma NormalisedInProportion(xs: seq<real>, j: nat, k: nat)
    requires xs != [] && AllPositive(xs) && j < |xs| && k < |xs|
    ensures Mean(xs) > 0.0 && Normalised(xs)[j] * xs[k] == Normalised(xs)[k] * xs[j]
  {
    TotalPositive(xs);
    Proportion(xs[j], xs[k], Mean(xs));
  }

  lemma Proportion(a: real, b: real, c: real)
    requires c > 0.0
    ensures (a / c) * b == (b / c) * a
  {
    assert (a / c) * b == (a * b) / c;
    assert (b / c) * a == (b * a) / c;
  }

  lemma LogNormalIs(sigma: real, z: real, exp: real -> real)
    ensures LogNormal(sigma, z, exp) == exp(sigma * z)
  {
  }

  /** Instance `i` has the exponential of sigma times its own normal draw. */
  lemma RawMultiplierIs(rng: Rng, sigma: real, exp: real -> real, i: nat)
    ensures var z := rng.source.norms(rng.seed, rng.calls + Normals(i));
            RawMultiplier(rng, sigma, exp, i) == exp(sigma * z)
  {
    LogNormalIs(sigma, rng.source.norms(rng.seed, rng.calls + Normals(i)), exp);
  }

  lemma NextNormal(rng: Rng, i: nat)
    ensures AfterNormals(rng, i).Norm().1 == AfterNormals(rng, i + 1)
  {
    assert rng.calls + Normals(i) + [CallNorm] == rng.calls + Normals(i + 1);
  }

  method DivideAll(a: array<real>, c: real)
    requires c != 0.0
    modifies a
    ensures forall k | 0 <= k < a.Length :: a[k] == old(a[k]) / c
  {
    for i := 0 to a.Length
      invariant forall k | 0 <= k < i :: a[k] == old(a[k]) / c
      invariant forall k | i <= k < a.Length :: a[k] == old(a[k])
    {
      a[i] := a[i] / c;
    }
  }

  /** The log-normal values, one normal draw each, and their sum. */
  method DrawAll(a: array<real>, rng: Rng, sigma: real, exp: real -> real) returns (sum: real, next: Rng)
    modifies a
    ensures a[..] == RawMultipliers(rng, a.Length, sigma, exp)
    ensures sum == Total(a[..]) && next == AfterNormals(rng, a.Length)
  {
    sum, next := 0.0, rng;
    for i := 0 to a.Length
      invariant next == AfterNormals(rng, i)
      invariant forall k | 0 <= k < i :: a[k] == RawMultiplier(rng, sigma, exp, k)
      invariant sum == Total(a[..i])
    {
      var (z, r) := next.Norm();
      a[i] := LogNormal(sigma, z, exp);
      sum := sum + a[i];
      next := r;
      NextNormal(rng, i);
      assert a[..i + 1][..i] == a[..i];
    }
    assert a[..a.Length] == a[..];
  }

  /** One normal draw per instance, and none when the skew is off. */
  method BuildInstanceMultipliers(rng: Rng, scale: nat, sigma: real, exp: real -> real)
    returns (m: Option<array<real>>, next: Rng)
    requires Positive(exp)
    ensures m.None? <==> sigma == 0.0 || scale == 0
    ensures m.None? ==> next == rng
    ensures m.Some? ==>
      && var raw := RawMultipliers(rng, scale, sigma, exp);
      && AllPositive(raw) && Mean(raw) > 0.0
      && fresh(m.value)
      && m.value[..] == Normalised(raw)
      && next == AfterNormals(rng, scale)
  {
    if sigma == 0.0 || scale == 0 {
      return None, rng;
    }
    var a := new real[scale];
    var sum;
    sum, next := DrawAll(a, rng, sigma, exp);
    ghost var raw := a[..];
    TotalPositive(raw);
    var mean := sum / scale as real;
    DivideAll(a, mean);
    assert a[..] == Normalised(raw);
    m := Some(a);
  }

  // ----- total volume

  function TotalLogs(base: int, multipliers: seq<real>): int {
    if multipliers == [] then 0
    else TotalLogs(base, multipliers[..|multipliers| - 1]) + Skewed(base, multipliers[|multipliers| - 1])
  }

  /** `logs` records from `n` instances whose multipliers add up to `total`. */
  predicate Near(base: real, total: real, logs: real, n: real) {
    base * total - n / 2.0 <= logs <= base * total + n
  }

  lemma NearMore(base: real, total: real, logs: real, n: real, m: real, more: real)
    requires Near(base, total, logs, n)
    requires base * m - 0.5 <= more <= base * m + 1.0
    ensures Near(base, total + m, logs + more, n + 1.0)
  {
    Distribute(base, total, m);
  }

  lemma {:induction false} TotalLogsNear(base: int, ms: seq<real>)
    requires base >= 1 && AllPositive(ms)
    ensures Near(base as real, Total(ms), TotalLogs(base, ms) as real, |ms| as real)
  {
    if ms != [] {
      var front, m := ms[..|ms| - 1], ms[|ms| - 1];
      TotalLogsNear(base, front);
      RoundedNear(base, m);
      NearMore(base as real, Total(front), TotalLogs(base, front) as real, |front| as real, m, Skewed(base, m) as real);
    }
  }

  lemma RoundedNear(base: int, m: real)
    requires base >= 1 && m > 0.0
    ensures base as real * m - 0.5 <= Skewed(base, m) as real <= base as real * m + 1.0
  {
    var x := base as real * m;
    assert x > 0.0;
  }

  lemma Distribute(a: real, b: real, c: real)
    ensures a * (b + c) == a * b + a * c
  {
  }

  /** Skew redistributes the volume of a scenario: with normalised multipliers, rounding moves the total
      of `scale` instances by at most half a record down and one record up per instance. */
  lemma SkewPreservesVolume(base: int, ms: seq<real>)
    requires base >= 1 && AllPositive(ms)
    requires Total(ms) == |ms| as real
    ensures 2 * base * |ms| - |ms| <= 2 * TotalLogs(base, ms)
    ensures TotalLogs(base, ms) <= base * |ms| + |ms|
    ensures TotalLogs(base, ms) >= |ms|
  {
    TotalLogsNear(base, ms);
    MultiplyAsReal(base, |ms|);
    AtLeastOneEach(base, ms);
  }

  lemma {:induction false} MultiplyAsReal(a: int, n: nat)
    ensures a as real * n as real == (a * n) as real
  {
    if n > 0 {
      MultiplyAsReal(a, n - 1);
      assert n as real == (n - 1) as real + 1.0;
      assert a * n == a * (n - 1) + a;
    }
  }

  lemma {:induction false} AtLeastOneEach(base: int, ms: seq<real>)
    requires base >= 1
    ensures TotalLogs(base, ms) >= |ms|
  {
    if ms != [] {
      AtLeastOneEach(base, ms[..|ms| - 1]);
    }
  }
}
