/** Bursts and quiet periods: the per-scenario volume state machine (`resolveVolumeMultiplier`). */
module Volume {
  import opened Rand
  import opened Records

  datatype VolumeProfile = VolumeProfile(
    burstProbability: real,
    burstMultiplierMin: real,
    burstMultiplierMax: real,
    burstDurationMin: int,
    burstDurationMax: int,
    quietProbability: real,
    quietMultiplier: real,
    quietDurationMin: int,
    quietDurationMax: int)
  {
    /** What validation of the configuration accepts. */
    predicate Validated() {
      && 0.0 <= burstProbability <= 1.0
      && 0.0 <= quietProbability <= 1.0
      && burstProbability + quietProbability <= 1.0
      && 0.0 <= burstMultiplierMin <= burstMultiplierMax
      && (burstProbability > 0.0 ==> burstDurationMin >= 1)
      && burstDurationMin <= burstDurationMax
      && 0.0 <= quietMultiplier
      && (quietProbability > 0.0 ==> quietDurationMin >= 1)
      && quietDurationMin <= quietDurationMax
    }
  }

  predicate ProfileOk(vp: Option<VolumeProfile>) {
    vp.Some? ==> vp.value.Validated()
  }

  datatype Phase = Phase(multiplier: real, remaining: int)

  /** The point of [lo, hi] that a roll in [0, 1) selects. */
  function Between(lo: real, hi: real, roll: real): (m: real)
    requires lo <= hi && 0.0 <= roll < 1.0
    ensures lo <= m <= hi
  {
    lo + Scaled(roll, hi - lo)
  }

  function Scaled(u: real, width: real): (r: real)
    requires 0.0 <= u < 1.0 && 0.0 <= width
    ensures 0.0 <= r <= width
  {
    ProductSign(u, width);
    ProductSign(1.0 - u, width);
    assert (1.0 - u) * width == width - u * width;
    u * width
  }

  lemma ProductSign(a: real, b: real)
    requires 0.0 <= a && 0.0 <= b
    ensures 0.0 <= a * b
  {
  }

  /** The weighted mean of two multipliers. */
  function Mixed(lo: real, hi: real, u: real): real {
    (1.0 - u) * lo + u * hi
  }

  lemma BetweenIsMixed(lo: real, hi: real, roll: real)
    requires lo <= hi && 0.0 <= roll < 1.0
    ensures Between(lo, hi, roll) == Mixed(lo, hi, roll)
  {
    assert roll * (hi - lo) == roll * hi - roll * lo;
    assert (1.0 - roll) * lo == lo - roll * lo;
  }

  /** One interval: the next phase, the multiplier of this interval, and the generator afterwards. */
  function Advance(ph: Phase, rng: Rng, vp: Option<VolumeProfile>): (Phase, real, Rng)
    requires ProfileOk(vp)
  {
    if vp.None? then (ph, 1.0, rng)
    else if ph.remaining > 0 then (ph.(remaining := ph.remaining - 1), ph.multiplier, rng)
    else
      var p := vp.value;
      var (roll, r1) := rng.Float64();
      if roll < p.burstProbability then
        var (u, r2) := r1.Float64();
        var (d, r3) := r2.Intn(p.burstDurationMax - p.burstDurationMin + 1);
        var m := Between(p.burstMultiplierMin, p.burstMultiplierMax, u);
        (Phase(m, p.burstDurationMin + d - 1), m, r3)
      else if roll < p.burstProbability + p.quietProbability then
        var (d, r2) := r1.Intn(p.quietDurationMax - p.quietDurationMin + 1);
        (Phase(p.quietMultiplier, p.quietDurationMin + d - 1), p.quietMultiplier, r2)
      else (ph, 1.0, r1)
  }

  class VolumeState {
    var multiplier: real
    var remainingIntervals: int

    constructor ()
      ensures Value() == Phase(0.0, 0)
    {
      multiplier, remainingIntervals := 0.0, 0;
    }

    function Value(): Phase
      reads this
    {
      Phase(multiplier, remainingIntervals)
    }

    method Resolve(rng: Rng, vp: Option<VolumeProfile>) returns (m: real, next: Rng)
      requires ProfileOk(vp)
      modifies this
      ensures (Value(), m, next) == Advance(old(Value()), rng, vp)
      ensures old(remainingIntervals) >= 0 ==> remainingIntervals >= 0
    {
      if vp.None? {
        return 1.0, rng;
      }
      if remainingIntervals > 0 {
        remainingIntervals := remainingIntervals - 1;
        return multiplier, rng;
      }
      var p := vp.value;
      var (roll, r1) := rng.Float64();
      if roll < p.burstProbability {
        var (u, r2) := r1.Float64();
        multiplier := Between(p.burstMultiplierMin, p.burstMultiplierMax, u);
        var (d, r3) := r2.Intn(p.burstDurationMax - p.burstDurationMin + 1);
        remainingIntervals := p.burstDurationMin + d - 1;
        return multiplier, r3;
      } else if roll < p.burstProbability + p.quietProbability {
        multiplier := p.quietMultiplier;
        var (d, r2) := r1.Intn(p.quietDurationMax - p.quietDurationMin + 1);
        remainingIntervals := p.quietDurationMin + d - 1;
        return multiplier, r2;
      }
      return 1.0, r1;
    }
  }

  // ----- whole runs

  datatype Run = Run(multipliers: seq<real>, phase: Phase, rng: Rng)

  /** The multipliers of `n` successive intervals. */
  function Simulate(ph: Phase, rng: Rng, vp: VolumeProfile, n: nat): (run: Run)
    requires vp.Validated()
    ensures |run.multipliers| == n
    decreases n
  {
    if n == 0 then Run([], ph, rng)
    else
      var (ph', m, rng') := Advance(ph, rng, Some(vp));
      var rest := Simulate(ph', rng', vp, n - 1);
      rest.(multipliers := [m] + rest.multipliers)
  }

  datatype Episode = Normal | Burst(multiplier: real, length: nat) | Quiet(length: nat) {

    predicate Legal(vp: VolumeProfile) {
      match this
      case Normal => true
      case Burst(m, len) =>
        && vp.burstMultiplierMin <= m <= vp.burstMultiplierMax
        && 1 <= vp.burstDurationMin <= len <= vp.burstDurationMax
      case Quiet(len) =>
        1 <= vp.quietDurationMin <= len <= vp.quietDurationMax
    }

    /** The rolls of a generator, made when the episode begins, give it its kind, multiplier and length. */
    predicate Drawn(rng: Rng, vp: VolumeProfile)
      requires vp.Validated()
    {
      var (roll, r1) := rng.Float64();
      match this
      case Normal => vp.burstProbability + vp.quietProbability <= roll
      case Burst(m, len) =>
        var (u, r2) := r1.Float64();
        && roll < vp.burstProbability
        && m == Mixed(vp.burstMultiplierMin, vp.burstMultiplierMax, u)
        && len == vp.burstDurationMin + r2.Intn(vp.burstDurationMax - vp.burstDurationMin + 1).0
      case Quiet(len) =>
        && vp.burstProbability <= roll < vp.burstProbability + vp.quietProbability
        && len == vp.quietDurationMin + r1.Intn(vp.quietDurationMax - vp.quietDurationMin + 1).0
    }

    function Multipliers(vp: VolumeProfile): seq<real> {
      match this
      case Normal => [1.0]
      case Burst(m, len) => seq(len, _ => m)
      case Quiet(len) => seq(len, _ => vp.quietMultiplier)
    }

    /** What the episode asks of the generator, all of it when it begins. */
    function Draws(vp: VolumeProfile): seq<Call> {
      match this
      case Normal => [CallFloat64]
      case Burst(_, _) => [CallFloat64, CallFloat64, CallIntn(vp.burstDurationMax - vp.burstDurationMin + 1)]
      case Quiet(_) => [CallFloat64, CallIntn(vp.quietDurationMax - vp.quietDurationMin + 1)]
    }
  }

  function Unroll(es: seq<Episode>, vp: VolumeProfile): seq<real> {
    if es == [] then [] else es[0].Multipliers(vp) + Unroll(es[1..], vp)
  }

  function DrawsOf(es: seq<Episode>, vp: VolumeProfile): seq<Call> {
    if es == [] then [] else es[0].Draws(vp) + DrawsOf(es[1..], vp)
  }

  /** Within an episode the multiplier is constant, the counter falls by one, and nothing is drawn. */
  lemma {:induction false} MidEpisode(ph: Phase, rng: Rng, vp: VolumeProfile, n: nat)
    requires vp.Validated() && n <= ph.remaining
    ensures Simulate(ph, rng, vp, n) == Run(seq(n, _ => ph.multiplier), ph.(remaining := ph.remaining - n), rng)
    decreases n
  {
    if n > 0 {
      MidEpisode(ph.(remaining := ph.remaining - 1), rng, vp, n - 1);
    }
  }

  lemma {:induction false} SimulateSplit(ph: Phase, rng: Rng, vp: VolumeProfile, a: nat, b: nat)
    requires vp.Validated()
    ensures var first := Simulate(ph, rng, vp, a);
            var second := Simulate(first.phase, first.rng, vp, b);
            Simulate(ph, rng, vp, a + b) == second.(multipliers := first.multipliers + second.multipliers)
    decreases a
  {
    if a > 0 {
      var (ph', m, rng') := Advance(ph, rng, Some(vp));
      SimulateSplit(ph', rng', vp, a - 1, b);
      assert (a - 1) + b == a + b - 1;
    }
  }

  /** The episode that an idle state machine enters, and the state it is in after its first interval. */
  lemma EpisodeStart(ph: Phase, rng: Rng, vp: VolumeProfile) returns (e: Episode)
    requires vp.Validated() && ph.remaining == 0
    ensures e.Legal(vp) && e.Drawn(rng, vp)
    ensures var (ph', m, rng') := Advance(ph, rng, Some(vp));
            && e.Multipliers(vp) == seq(ph'.remaining + 1, _ => m)
            && (ph'.remaining > 0 ==> ph'.multiplier == m)
            && ph'.remaining >= 0
            && rng' == rng.(calls := rng.calls + e.Draws(vp))
  {
    var (ph', m, rng') := Advance(ph, rng, Some(vp));
    var roll := rng.Float64().0;
    if roll < vp.burstProbability {
      e := Burst(m, ph'.remaining + 1);
      BetweenIsMixed(vp.burstMultiplierMin, vp.burstMultiplierMax, rng.Float64().1.Float64().0);
    } else if roll < vp.burstProbability + vp.quietProbability {
      e := Quiet(ph'.remaining + 1);
    } else {
      e := Normal;
    }
  }

  lemma FirstEpisode(ph: Phase, rng: Rng, vp: VolumeProfile, k: nat) returns (e: Episode)
    requires vp.Validated() && ph.remaining == 0 && k >= 1
    ensures e.Legal(vp)
    ensures var ms := e.Multipliers(vp);
            && |ms| >= 1
            && var n := if k <= |ms| then k else |ms|;
               var run := Simulate(ph, rng, vp, n);
               && run.multipliers == ms[..n]
               && run.phase.remaining == |ms| - n
               && run.rng == rng.(calls := rng.calls + e.Draws(vp))
  {
    e := EpisodeStart(ph, rng, vp);
    var (ph', m, rng') := Advance(ph, rng, Some(vp));
    var ms := e.Multipliers(vp);
    var n := if k <= |ms| then k else |ms|;
    MidEpisode(ph', rng', vp, n - 1);
    assert ms[..n] == [m] + seq(n - 1, _ => ph'.multiplier);
  }

  /** The episodes `es` are what happened in a run of `n` intervals that started idle. */
  ghost predicate Explains(es: seq<Episode>, ph: Phase, rng: Rng, vp: VolumeProfile, n: nat)
    requires vp.Validated()
  {
    && (forall e <- es :: e.Legal(vp))
    && (es != [] ==> |Unroll(es[..|es| - 1], vp)| < n)
    && n <= |Unroll(es, vp)|
    && Simulate(ph, rng, vp, n) == Run(
         Unroll(es, vp)[..n],
         Phase(Simulate(ph, rng, vp, n).phase.multiplier, |Unroll(es, vp)| - n),
         rng.(calls := rng.calls + DrawsOf(es, vp)))
  }

  /** Every run splits into normal intervals and legal bursts and quiet periods.  Each but the last is
      complete, the last may be cut off by the end of the run, and the generator is asked for exactly
      the draws that begin the episodes. */
  lemma {:induction false} RunsAreEpisodes(ph: Phase, rng: Rng, vp: VolumeProfile, n: nat) returns (es: seq<Episode>)
    requires vp.Validated() && ph.remaining == 0
    ensures Explains(es, ph, rng, vp, n)
    decreases n
  {
    if n == 0 {
      es := [];
    } else {
      var e := FirstEpisode(ph, rng, vp, n);
      var len := |e.Multipliers(vp)|;
      if n <= len {
        es := [e];
        OnlyEpisode(e, ph, rng, vp, n);
      } else {
        var first := Simulate(ph, rng, vp, len);
        var rest := RunsAreEpisodes(first.phase, first.rng, vp, n - len);
        ExtendBack(e, rest, ph, rng, vp, len, n - len);
        es := [e] + rest;
      }
    }
  }

  lemma OnlyEpisode(e: Episode, ph: Phase, rng: Rng, vp: VolumeProfile, n: nat)
    requires vp.Validated() && e.Legal(vp) && 0 < n <= |e.Multipliers(vp)|
    requires var run := Simulate(ph, rng, vp, n);
             && run.multipliers == e.Multipliers(vp)[..n] && run.phase.remaining == |e.Multipliers(vp)| - n
             && run.rng == rng.(calls := rng.calls + e.Draws(vp))
    ensures Explains([e], ph, rng, vp, n)
  {
    Prepend(e, [], vp);
    assert [e] == [e] + [] && [e][..0] == [];
    assert e.Multipliers(vp) + [] == e.Multipliers(vp) && e.Draws(vp) + [] == e.Draws(vp);
  }

  lemma ExtendBack(e: Episode, rest: seq<Episode>, ph: Phase, rng: Rng, vp: VolumeProfile, len: nat, m: nat)
    requires vp.Validated() && e.Legal(vp) && len == |e.Multipliers(vp)| && m > 0
    requires Simulate(ph, rng, vp, len).multipliers == e.Multipliers(vp)
    requires Simulate(ph, rng, vp, len).rng == rng.(calls := rng.calls + e.Draws(vp))
    requires Explains(rest, Simulate(ph, rng, vp, len).phase, Simulate(ph, rng, vp, len).rng, vp, m)
    ensures Explains([e] + rest, ph, rng, vp, len + m)
  {
    SimulateSplit(ph, rng, vp, len, m);
    Prepend(e, rest, vp);
    assert rest != [];
    assert ([e] + rest)[..|rest|] == [e] + rest[..|rest| - 1];
    Prepend(e, rest[..|rest| - 1], vp);
    assert rng.calls + e.Draws(vp) + DrawsOf(rest, vp) == rng.calls + DrawsOf([e] + rest, vp);
    assert Unroll([e] + rest, vp)[..len + m] == e.Multipliers(vp) + Unroll(rest, vp)[..m];
  }

  lemma Prepend(e: Episode, rest: seq<Episode>, vp: VolumeProfile)
    ensures Unroll([e] + rest, vp) == e.Multipliers(vp) + Unroll(rest, vp)
    ensures DrawsOf([e] + rest, vp) == e.Draws(vp) + DrawsOf(rest, vp)
  {
    assert ([e] + rest)[1..] == rest;
  }

  // ----- intervals between which others draw from the generator

  /** Successive intervals: interval `k` finds the phase `phases[k]` and the generator `rngs[k]`, and is
      resolved to `multipliers[k]`. */
  datatype Course = Course(phases: seq<Phase>, multipliers: seq<real>, rngs: seq<Rng>) {

    /** Each interval leaves the phase that the next one finds. */
    ghost predicate Follows(vp: Option<VolumeProfile>)
      requires ProfileOk(vp)
    {
      && |phases| == |rngs| + 1 && |multipliers| == |rngs|
      && forall k | 0 <= k < |rngs| ::
           var (ph, m, _) := Advance(phases[k], rngs[k], vp);
           phases[k + 1] == ph && multipliers[k] == m
    }

    /** The course from interval `n` on. */
    function From(n: nat): Course
      requires n <= |rngs| && |phases| == |rngs| + 1 && |multipliers| == |rngs|
    {
      Course(phases[n..], multipliers[n..], rngs[n..])
    }
  }

  /** The episodes `es` are what happened in the course: legal ones, each begun by the rolls of the generator
      that its first interval found, and all but the last complete. */
  ghost predicate ExplainsCourse(es: seq<Episode>, c: Course, vp: VolumeProfile)
    requires vp.Validated()
  {
    var n := |c.rngs|;
    && |c.phases| == n + 1 && |c.multipliers| == n
    && (forall e <- es :: e.Legal(vp))
    && (forall j | 0 <= j < |es| ::
          var first := |Unroll(es[..j], vp)|;
          first < n && es[j].Drawn(c.rngs[first], vp))
    && n <= |Unroll(es, vp)|
    && c.multipliers == Unroll(es, vp)[..n]
    && c.phases[n].remaining == |Unroll(es, vp)| - n
  }

  /** Within an episode nothing is drawn, whatever the generators. */
  lemma {:induction false} CourseStays(c: Course, vp: VolumeProfile, a: nat, n: nat)
    requires vp.Validated() && c.Follows(Some(vp)) && a + n <= |c.rngs| && n <= c.phases[a].remaining
    ensures c.phases[a + n] == c.phases[a].(remaining := c.phases[a].remaining - n)
    ensures c.multipliers[a..a + n] == seq(n, _ => c.phases[a].multiplier)
  {
    if n > 0 {
      CourseStays(c, vp, a, n - 1);
      assert c.phases[a + (n - 1) + 1] == c.phases[a].(remaining := c.phases[a].remaining - n);
      assert c.multipliers[a..a + n] == c.multipliers[a..a + (n - 1)] + [c.multipliers[a + (n - 1)]];
    }
  }

  lemma FirstOfCourse(c: Course, vp: VolumeProfile) returns (e: Episode)
    requires vp.Validated() && c.Follows(Some(vp)) && c.rngs != [] && c.phases[0].remaining == 0
    ensures e.Legal(vp) && e.Drawn(c.rngs[0], vp)
    ensures var ms := e.Multipliers(vp);
            && |ms| >= 1
            && var n := if |c.rngs| <= |ms| then |c.rngs| else |ms|;
               c.multipliers[..n] == ms[..n] && c.phases[n].remaining == |ms| - n
  {
    e := EpisodeStart(c.phases[0], c.rngs[0], vp);
    var ms := e.Multipliers(vp);
    var n := if |c.rngs| <= |ms| then |c.rngs| else |ms|;
    assert c.phases[1].remaining == |ms| - 1;
    CourseStays(c, vp, 1, n - 1);
    assert c.multipliers[..n] == [c.multipliers[0]] + c.multipliers[1..1 + (n - 1)];
  }

  /** Every course that starts idle splits into legal episodes, begun by the rolls made in their first
      intervals: bursts and quiet periods last as long as they were drawn for, whoever draws from the generator
      between two intervals. */
  lemma {:induction false} CoursesAreEpisodes(c: Course, vp: VolumeProfile) returns (es: seq<Episode>)
    requires vp.Validated() && c.Follows(Some(vp)) && c.phases[0].remaining == 0
    ensures ExplainsCourse(es, c, vp)
    decreases |c.rngs|
  {
    if c.rngs == [] {
      es := [];
    } else {
      var e := FirstOfCourse(c, vp);
      var len := |e.Multipliers(vp)|;
      if |c.rngs| <= len {
        es := [e];
        OneEpisode(e, c, vp);
      } else {
        var rest := CoursesAreEpisodes(c.From(len), vp);
        ExtendCourse(e, rest, c, vp, len);
        es := [e] + rest;
      }
    }
  }

  lemma OneEpisode(e: Episode, c: Course, vp: VolumeProfile)
    requires vp.Validated() && e.Legal(vp) && 0 < |c.rngs| <= |e.Multipliers(vp)|
    requires |c.phases| == |c.rngs| + 1 && |c.multipliers| == |c.rngs|
    requires e.Drawn(c.rngs[0], vp) && c.multipliers[..|c.rngs|] == e.Multipliers(vp)[..|c.rngs|]
    requires c.phases[|c.rngs|].remaining == |e.Multipliers(vp)| - |c.rngs|
    ensures ExplainsCourse([e], c, vp)
  {
    Prepend(e, [], vp);
    assert [e] == [e] + [] && [e][..0] == [];
    assert e.Multipliers(vp) + [] == e.Multipliers(vp);
    assert c.multipliers[..|c.rngs|] == c.multipliers;
  }

  lemma ExtendMultipliers(e: Episode, rest: seq<Episode>, c: Course, vp: VolumeProfile, len: nat)
    requires len == |e.Multipliers(vp)| && len < |c.rngs| && |c.multipliers| == |c.rngs|
    requires c.multipliers[..len] == e.Multipliers(vp)
    requires |c.rngs| - len <= |Unroll(rest, vp)| && c.multipliers[len..] == Unroll(rest, vp)[..|c.rngs| - len]
    ensures |Unroll([e] + rest, vp)| == len + |Unroll(rest, vp)|
    ensures c.multipliers == Unroll([e] + rest, vp)[..|c.rngs|]
  {
    Prepend(e, rest, vp);
    assert c.multipliers == c.multipliers[..len] + c.multipliers[len..];
  }

  lemma ExtendDraws(e: Episode, rest: seq<Episode>, c: Course, vp: VolumeProfile, len: nat, j: nat)
    requires vp.Validated() && len == |e.Multipliers(vp)| && len < |c.rngs| && j <= |rest|
    requires e.Drawn(c.rngs[0], vp)
    requires j > 0 ==> var first := |Unroll(rest[..j - 1], vp)|;
                       first < |c.rngs| - len && rest[j - 1].Drawn(c.rngs[len..][first], vp)
    ensures var es := [e] + rest;
            |Unroll(es[..j], vp)| < |c.rngs| && es[j].Drawn(c.rngs[|Unroll(es[..j], vp)|], vp)
  {
    var es := [e] + rest;
    if j == 0 {
      assert es[..0] == [];
    } else {
      assert es[..j] == [e] + rest[..j - 1];
      Prepend(e, rest[..j - 1], vp);
    }
  }

  lemma ExtendCourse(e: Episode, rest: seq<Episode>, c: Course, vp: VolumeProfile, len: nat)
    requires vp.Validated() && e.Legal(vp) && len == |e.Multipliers(vp)| && len < |c.rngs|
    requires |c.phases| == |c.rngs| + 1 && |c.multipliers| == |c.rngs|
    requires e.Drawn(c.rngs[0], vp) && c.multipliers[..len] == e.Multipliers(vp)
    requires ExplainsCourse(rest, c.From(len), vp)
    ensures ExplainsCourse([e] + rest, c, vp)
  {
    var es := [e] + rest;
    ExtendMultipliers(e, rest, c, vp, len);
    forall j | 0 <= j < |es|
      ensures |Unroll(es[..j], vp)| < |c.rngs| && es[j].Drawn(c.rngs[|Unroll(es[..j], vp)|], vp)
    {
      ExtendDraws(e, rest, c, vp, len, j);
    }
  }
}
