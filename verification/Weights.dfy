/** Weighted choices: the subtraction loop over weights, and severities by cumulative weights. */
module Weights {
  import opened Rand
  import opened Records
  import opened Intervals

  datatype Weighted<T> = Weighted(val: T, weight: nat)

  /** The weights of the first `n` choices together. */
  function Cumulative<T>(choices: seq<Weighted<T>>, n: nat): nat
    requires n <= |choices|
  {
    if n == 0 then 0 else Cumulative(choices, n - 1) + choices[n - 1].weight
  }

  function Total<T>(choices: seq<Weighted<T>>): nat {
    Cumulative(choices, |choices|)
  }

  /** Roll `n` falls to choice `i`: selection by cumulative weights. */
  predicate Selects<T>(choices: seq<Weighted<T>>, n: nat, i: nat) {
    i < |choices| && Cumulative(choices, i) <= n < Cumulative(choices, i + 1)
  }

  /** Roll `n` falls to a choice with the value `v`. */
  ghost predicate Gets<T>(choices: seq<Weighted<T>>, n: nat, v: T) {
    exists i: nat :: Selects(choices, n, i) && choices[i].val == v
  }

  lemma {:induction false} CumulativeMonotone<T>(choices: seq<Weighted<T>>, i: nat, j: nat)
    requires i <= j <= |choices|
    ensures Cumulative(choices, i) <= Cumulative(choices, j)
    decreases j
  {
    if i < j {
      CumulativeMonotone(choices, i, j - 1);
    }
  }

  lemma SelectsOne<T>(choices: seq<Weighted<T>>, n: nat, i: nat, j: nat)
    requires Selects(choices, n, i) && Selects(choices, n, j)
    ensures i == j
  {
    if i < j {
      CumulativeMonotone(choices, i + 1, j);
    } else if j < i {
      CumulativeMonotone(choices, j + 1, i);
    }
  }

  /** The loop `n -= weight; if n < 0` picks the choice that the cumulative weights select, and every roll
      below the total picks one. */
  method Pick<T>(choices: seq<Weighted<T>>, roll: nat) returns (picked: Option<nat>)
    ensures picked.Some? ==> Selects(choices, roll, picked.value)
    ensures picked.Some? <==> roll < Total(choices)
    ensures forall i: nat :: Selects(choices, roll, i) ==> picked == Some(i)
  {
    var n: int := roll;
    for i := 0 to |choices|
      invariant n == roll - Cumulative(choices, i) && n >= 0
    {
      n := n - choices[i].weight;
      if n < 0 {
        CumulativeMonotone(choices, i + 1, |choices|);
        forall k: nat | Selects(choices, roll, k)
          ensures k == i
        {
          SelectsOne(choices, roll, i, k);
        }
        return Some(i);
      }
    }
    forall k: nat | Selects(choices, roll, k)
      ensures roll < Total(choices)
    {
      CumulativeMonotone(choices, k + 1, |choices|);
    }
    picked := None;
  }

  /** The rolls below the total that fall to choice `i`. */
  function RollsFor<T>(choices: seq<Weighted<T>>, i: nat): set<nat> {
    set n: nat | n < Total(choices) && Selects(choices, n, i)
  }

  /** Of the rolls below the total, exactly `weight` many fall to a choice of that weight. */
  lemma WeightIsExact<T>(choices: seq<Weighted<T>>, i: nat)
    requires i < |choices|
    ensures |RollsFor(choices, i)| == choices[i].weight
  {
    CumulativeMonotone(choices, i + 1, |choices|);
    assert Cumulative(choices, i) <= Cumulative(choices, i + 1) <= Total(choices);
    forall n: nat
      ensures n in RollsFor(choices, i) <==> Cumulative(choices, i) <= n < Cumulative(choices, i + 1)
    {
      assert Selects(choices, n, i) <==> Cumulative(choices, i) <= n < Cumulative(choices, i + 1);
    }
    SizeBetween(RollsFor(choices, i), Cumulative(choices, i), Cumulative(choices, i + 1));
  }

  const HTTP_STATUSES: seq<Weighted<int>> := [
    Weighted(200, 70), Weighted(201, 8), Weighted(301, 3), Weighted(304, 4), Weighted(400, 2),
    Weighted(404, 5), Weighted(500, 3), Weighted(502, 2), Weighted(503, 3)]

  method SumWeights<T>(choices: seq<Weighted<T>>) returns (total: nat)
    ensures total == Total(choices)
  {
    total := 0;
    for i := 0 to |choices|
      invariant total == Cumulative(choices, i)
    {
      total := total + choices[i].weight;
    }
  }

  /** The fallback after the loop is never taken: the status is the one the roll selects. */
  method RandomHTTPStatus(rng: Rng) returns (status: int, next: Rng)
    ensures Total(HTTP_STATUSES) == 100
    ensures Gets(HTTP_STATUSES, rng.Intn(100).0, status)
    ensures next == rng.Intn(100).1
  {
    HttpTotal();
    var total := SumWeights(HTTP_STATUSES);
    var (n, r) := rng.Intn(total);
    next := r;
    var picked := Pick(HTTP_STATUSES, n);
    if picked.None? {
      return 200, next;
    }
    status := HTTP_STATUSES[picked.value].val;
  }

  lemma HttpTotal()
    ensures Total(HTTP_STATUSES) == 100
  {
    assert Cumulative(HTTP_STATUSES, 3) == 81;
    assert Cumulative(HTTP_STATUSES, 6) == 92;
    assert Cumulative(HTTP_STATUSES, 9) == 100;
  }

  function AfterRolls(rng: Rng, total: int, n: nat): Rng {
    rng.(calls := rng.calls + seq(n, _ => CallIntn(total)))
  }

  /** A pool of choices: one roll a slot, and every slot filled. */
  method WeightedPool<T(0)>(rng: Rng, choices: seq<Weighted<T>>, size: nat) returns (pool: array<T>, next: Rng)
    requires Total(choices) > 0
    ensures fresh(pool) && pool.Length == size
    ensures next == AfterRolls(rng, Total(choices), size)
    ensures forall k | 0 <= k < size ::
        Gets(choices, AfterRolls(rng, Total(choices), k).Intn(Total(choices)).0, pool[k])
  {
    var total := SumWeights(choices);
    pool := new T[size];
    next := rng;
    for k := 0 to size
      invariant next == AfterRolls(rng, total, k)
      invariant forall j | 0 <= j < k :: Gets(choices, AfterRolls(rng, total, j).Intn(total).0, pool[j])
    {
      var (n, r) := next.Intn(total);
      NextRoll(rng, total, k);
      var picked := Pick(choices, n);
      if picked.Some? {
        pool[k] := choices[picked.value].val;
      }
      next := r;
    }
  }

  lemma NextRoll(rng: Rng, total: int, n: nat)
    requires total > 0
    ensures AfterRolls(rng, total, n).Intn(total).1 == AfterRolls(rng, total, n + 1)
  {
    assert rng.calls + seq(n, _ => CallIntn(total)) + [CallIntn(total)] == rng.calls + seq(n + 1, _ => CallIntn(total));
  }

  // ----- severities

  const SEVERITIES: seq<Severity> := [Trace, Debug, Info, Warn, Error, Fatal]

  /** The first severity whose cumulative weight exceeds the roll; INFO if there is none. */
  function SeverityIndex(w: seq<int>, n: int, from: nat): Option<nat>
    requires from <= |w|
    decreases |w| - from
  {
    if from == |w| then None else if n < w[from] then Some(from) else SeverityIndex(w, n, from + 1)
  }

  /** The severity that roll `n` picks. */
  function SeverityFor(w: seq<int>, n: int): Severity
    requires |w| == 6 && n >= 0
  {
    match SeverityIndex(w, n, 0)
    case Some(i) => if i < 6 then SEVERITIES[i] else Info
    case None => Info
  }

  function PickSeverity(rng: Rng, w: seq<int>): (Severity, Rng)
    requires |w| == 6
  {
    var (n, r) := rng.Intn(100);
    (SeverityFor(w, n), r)
  }

  method PickSeverityFromWeights(rng: Rng, w: seq<int>) returns (sev: Severity, next: Rng)
    requires |w| == 6
    ensures (sev, next) == PickSeverity(rng, w)
  {
    var (n, r) := rng.Intn(100);
    next := r;
    for i := 0 to 6
      invariant SeverityIndex(w, n, 0) == SeverityIndex(w, n, i)
    {
      if n < w[i] {
        return SEVERITIES[i], next;
      }
    }
    sev := Info;
  }

  /** What validation demands of the cumulative weights. */
  predicate WeightsOk(w: seq<int>) {
    && |w| == 6
    && w[0] >= 0 && (forall i | 0 < i < 6 :: w[i - 1] <= w[i])
    && w[5] == 100
  }

  datatype WeightError = Decreasing(i: nat) | OutOfRange(i: nat) | LastNot100

  /** What the error says is so, and the weights before the one it names are in order. */
  predicate Blames(e: WeightError, w: seq<int>)
    requires |w| == 6
  {
    match e
    case Decreasing(i) => i < 6 && w[i] < Below(w, i) && InOrder(w, i)
    case OutOfRange(i) => i < 6 && (w[i] < 0 || w[i] > 100) && InOrder(w, i)
    case LastNot100 => w[5] != 100 && InOrder(w, 6)
  }

  /** The first `n` weights rise from zero or more to a hundred or less. */
  predicate InOrder(w: seq<int>, n: nat)
    requires n <= |w|
  {
    forall k | 0 <= k < n :: Below(w, k) <= w[k] && 0 <= w[k] <= 100
  }

  method ValidateSeverityWeights(sw: Option<seq<int>>) returns (err: Option<WeightError>)
    requires sw.Some? ==> |sw.value| == 6
    ensures err.None? <==> sw.None? || WeightsOk(sw.value)
    ensures err.Some? ==> sw.Some? && Blames(err.value, sw.value)
  {
    if sw.None? {
      return None;
    }
    var w := sw.value;
    var prev := 0;
    for i := 0 to 6
      invariant prev == if i == 0 then 0 else w[i - 1]
      invariant 0 <= prev <= 100
      invariant i > 0 ==> w[0] >= 0
      invariant forall k | 0 < k < i :: w[k - 1] <= w[k]
      invariant InOrder(w, i)
    {
      if w[i] < prev {
        return Some(Decreasing(i));
      }
      if w[i] < 0 || w[i] > 100 {
        WeightsBounded(w, i);
        return Some(OutOfRange(i));
      }
      prev := w[i];
    }
    if w[5] != 100 {
      return Some(LastNot100);
    }
    err := None;
  }

  lemma {:induction false} WeightsBounded(w: seq<int>, i: nat)
    requires i < 6
    ensures WeightsOk(w) ==> 0 <= w[i] <= 100
    decreases 6 - i
  {
    if WeightsOk(w) {
      assert w[0] <= w[1] <= w[2] <= w[3] <= w[4] <= w[5];
    }
  }

  /** Six zeros are rejected, although the configuration's comments call them a request for the default. */
  lemma AllZerosRejected()
    ensures !WeightsOk([0, 0, 0, 0, 0, 0])
  {
  }

  function Below(w: seq<int>, i: nat): int
    requires i <= |w|
  {
    if i == 0 then 0 else w[i - 1]
  }

  lemma {:induction false} SeverityIndexMeans(w: seq<int>, n: int, from: nat)
    requires WeightsOk(w) && 0 <= n < 100 && from < 6 && Below(w, from) <= n
    ensures SeverityIndex(w, n, from).Some?
    ensures var i := SeverityIndex(w, n, from).value; from <= i < 6 && Below(w, i) <= n < w[i]
    decreases 6 - from
  {
    if n >= w[from] {
      SeverityIndexMeans(w, n, from + 1);
    }
  }

  lemma {:induction false} BelowMonotone(w: seq<int>, i: nat, j: nat)
    requires WeightsOk(w) && i <= j <= 6
    ensures 0 <= Below(w, i) <= Below(w, j)
    decreases j, i
  {
    if i < j {
      BelowMonotone(w, i, j - 1);
      assert j > 1 ==> w[j - 2] <= w[j - 1];
    } else if 0 < i {
      BelowMonotone(w, i - 1, i);
    }
  }

  /** For validated weights the fallback is unreachable. */
  lemma SeverityFallsTo(w: seq<int>, n: nat, i: nat)
    requires WeightsOk(w) && n < 100 && i < 6
    ensures SeverityIndex(w, n, 0).Some?
    ensures SeverityIndex(w, n, 0) == Some(i) <==> Below(w, i) <= n < Below(w, i + 1)
  {
    SeverityIndexMeans(w, n, 0);
    var k := SeverityIndex(w, n, 0).value;
    if k < i {
      BelowMonotone(w, k + 1, i);
    } else if i < k {
      BelowMonotone(w, i + 1, k);
    }
  }

  /** The rolls that give severity number `i`. */
  function RollsForSeverity(w: seq<int>, i: nat): set<nat> {
    set n: nat | n < 100 && SeverityIndex(w, n, 0) == Some(i)
  }

  /** Of the hundred rolls exactly `w[i] - w[i-1]` give severity number `i`. */
  lemma SeverityShare(w: seq<int>, i: nat)
    requires WeightsOk(w) && i < 6
    ensures |RollsForSeverity(w, i)| == Below(w, i + 1) - Below(w, i)
  {
    BelowMonotone(w, i, i + 1);
    BelowMonotone(w, i + 1, 6);
    forall n: nat
      ensures n in RollsForSeverity(w, i) <==> Below(w, i) <= n < Below(w, i + 1)
    {
      if n < 100 {
        SeverityFallsTo(w, n, i);
      }
    }
    SizeBetween(RollsForSeverity(w, i), Below(w, i), Below(w, i + 1));
  }
}
