/** The volume of an interval, and bursts and quiet periods over whole runs: they span the rounds, whatever the
threads of the rounds do. */
module VolumeHistory {
  import opened Rand
  import opened Records
  import opened Volume
  import opened Rounds
  import opened RoundTheorems
  import opened Lifecycle
  import opened Emission
  import opened Receiver
  import opened Replay
  import Diurnal
  import Skew

  // ----- one interval

  /** The number of records that a volume of `x` stands for: the whole ones in it, but at least one. */
  predicate CountsVolume(n: int, x: real) {
    && (x >= 1.0 ==> x - 1.0 < n as real <= x)
    && (x < 1.0 ==> n == 1)
  }

  /** `n` counts the volume of an interval: the configured number of records, times the result `d` of the
      time-of-day curve, times the multiplier `m` that the burst state machine resolves the interval to. */
  predicate Counts(logsPerInterval: int, d: real, m: real, n: int) {
    CountsVolume(n, logsPerInterval as real * d * m)
  }

  lemma PlanResolves(env: Env, s: Setup, t: int, ph: Phase, rng: Rng)
    requires s.Ok() && env.interval > 0
    ensures var (ph', m, r) := Advance(ph, rng, s.volume);
            ScenarioOf(env, s).plan(t, ph, rng) == (ph', EffectiveLogs(s.logsPerInterval, DiurnalOf(env, s, t), m), r)
  {
  }

  lemma EffectiveCounts(logsPerInterval: int, diurnal: real, volume: real)
    requires logsPerInterval > 0
    ensures Counts(logsPerInterval, diurnal, volume, EffectiveLogs(logsPerInterval, diurnal, volume))
  {
  }

  /** The base count of an interval counts its volume, with the multiplier of the burst state machine. */
  lemma PlanCountsVolume(env: Env, s: Setup, t: int, ph: Phase, rng: Rng)
    requires s.Ok() && env.interval > 0
    ensures var (ph', n, r) := ScenarioOf(env, s).plan(t, ph, rng);
            var (ph'', m, r') := Advance(ph, rng, s.volume);
            && ph' == ph'' && r == r'
            && (s.logsPerInterval > 0 ==>
                  Counts(s.logsPerInterval, Diurnal.Multiplier(env.wave, HourOf(t, env.zone), t, s.diurnal), m, n))
  {
    PlanResolves(env, s, t, ph, rng);
    if s.logsPerInterval > 0 {
      EffectiveCounts(s.logsPerInterval, DiurnalOf(env, s, t), Advance(ph, rng, s.volume).1);
    }
  }

  /** The volume of an interval, resolved in place. */
  method ResolveVolume(env: Env, s: Setup, volume: VolumeState, t: int, rng: Rng) returns (logs: int, next: Rng)
    requires s.Ok() && env.interval > 0
    modifies volume
    ensures (volume.Value(), logs, next) == ScenarioOf(env, s).plan(t, old(volume.Value()), rng)
  {
    PlanResolves(env, s, t, volume.Value(), rng);
    var diurnal := Diurnal.DiurnalMultiplier(env.wave, HourOf(t, env.zone), t, s.diurnal);
    var m;
    m, next := volume.Resolve(rng, s.volume);
    logs := Skew.Truncate(Volume3(s.logsPerInterval, diurnal, m));
    if logs < 1 && s.logsPerInterval > 0 {
      logs := 1;
    }
  }

  // ----- whole runs

  /** In a round only the turn of scenario `i` moves its volume state: from what the round found, by the base
      generator where it then stands. */
  lemma {:induction false} OwnTurnMovesVolume(rd: Round, st: Store, i: nat, n: nat)
    requires StoreOk(rd, st) && i < |rd.scenarios| && n <= |rd.scenarios|
    ensures PositionAt(rd, st, n).volumes[i] ==
            if n <= i || rd.scenarios[i].logsPerInterval == 0 then st.volumes[i]
            else rd.scenarios[i].plan(rd.time, st.volumes[i], PositionAt(rd, st, i).base).0
    decreases n
  {
    if n > 0 {
      OwnTurnMovesVolume(rd, st, i, n - 1);
    }
  }

  /** The base generator when round `k` comes to scenario `i`. */
  function BaseOf(cfg: RunCfg, past: seq<Store>, i: nat, k: nat): Rng
    requires cfg.Valid() && k < |past| && StoreOk(cfg.RoundAt(k), past[k]) && i < |cfg.scenarios|
  {
    PositionAt(cfg.RoundAt(k), past[k], i).base
  }

  ghost predicate PastOk(cfg: RunCfg, past: seq<Store>) {
    cfg.Valid() && past != [] && forall k | 0 <= k < |past| :: StoreOk(cfg.RoundAt(k), past[k])
  }

  /** The volume of scenario `i` in the rounds completed: the phases before and after each, and the multipliers
      and generators of its intervals. */
  ghost function CourseOf(cfg: RunCfg, past: seq<Store>, i: nat, vp: Option<VolumeProfile>): (c: Course)
    requires PastOk(cfg, past) && i < |cfg.scenarios| && ProfileOk(vp)
    ensures |c.phases| == |past| && |c.rngs| == |c.multipliers| == |past| - 1
  {
    Course(
      seq(|past|, k requires 0 <= k < |past| => past[k].volumes[i]),
      seq(|past| - 1, k requires 0 <= k < |past| - 1 =>
        Advance(past[k].volumes[i], BaseOf(cfg, past, i, k), vp).1),
      seq(|past| - 1, k requires 0 <= k < |past| - 1 => BaseOf(cfg, past, i, k)))
  }

  /** The base count of scenario `i` in round `k`. */
  function CountOf(cfg: RunCfg, past: seq<Store>, i: nat, k: nat): int
    requires cfg.Valid() && k < |past| && StoreOk(cfg.RoundAt(k), past[k]) && i < |cfg.scenarios|
  {
    cfg.scenarios[i].plan(cfg.RoundAt(k).time, past[k].volumes[i], BaseOf(cfg, past, i, k)).1
  }

  lemma RoundMovesVolume(rd: Round, st: Store, st': Store, i: nat)
    requires StoreOk(rd, st) && ExtendsByReference(rd, st, st') && i < |rd.scenarios|
    requires rd.scenarios[i].logsPerInterval != 0
    ensures |st'.volumes| == |rd.scenarios|
    ensures st'.volumes[i] == rd.scenarios[i].plan(rd.time, st.volumes[i], PositionAt(rd, st, i).base).0
  {
    ReferenceIsReplay(rd, st);
    OwnTurnMovesVolume(rd, st, i, |rd.scenarios|);
  }

  lemma HistoryOk(cfg: RunCfg, past: seq<Store>)
    requires History(cfg, past)
    ensures PastOk(cfg, past)
  {
  }

  /** The result of the time-of-day curve in round `k`. */
  function CurveOf(env: Env, s: Setup, cfg: RunCfg, k: nat): real
    requires s.Ok() && cfg.Valid()
  {
    var t := cfg.RoundAt(k).time;
    Diurnal.Multiplier(env.wave, HourOf(t, env.zone), t, s.diurnal)
  }

  /** What the volume of scenario `i` was in each of the rounds. */
  ghost predicate VolumeExplained(env: Env, s: Setup, cfg: RunCfg, past: seq<Store>, i: nat, es: seq<Episode>)
    requires s.Ok() && i < |cfg.scenarios|
  {
    && PastOk(cfg, past)
    && var c := CourseOf(cfg, past, i, s.volume);
    && c.Follows(s.volume)
    && (s.volume.Some? ==> ExplainsCourse(es, c, s.volume.value))
    && forall k: nat | k < |past| - 1 ::
         Counts(s.logsPerInterval, CurveOf(env, s, cfg, k), c.multipliers[k], CountOf(cfg, past, i, k))
  }

  /** What round `k` does to the volume of scenario `i`. */
  ghost predicate RoundFollows(env: Env, s: Setup, cfg: RunCfg, past: seq<Store>, i: nat, k: nat)
    requires s.Ok() && PastOk(cfg, past) && k < |past| - 1 && i < |cfg.scenarios|
  {
    var (ph, m, _) := Advance(past[k].volumes[i], BaseOf(cfg, past, i, k), s.volume);
    past[k + 1].volumes[i] == ph && Counts(s.logsPerInterval, CurveOf(env, s, cfg, k), m, CountOf(cfg, past, i, k))
  }

  lemma RoundFollowsVolume(env: Env, s: Setup, cfg: RunCfg, past: seq<Store>, i: nat, k: nat)
    requires s.Ok() && env.interval > 0 && s.logsPerInterval > 0
    requires PastOk(cfg, past) && i < |cfg.scenarios| && cfg.scenarios[i] == ScenarioOf(env, s)
    requires k < |past| - 1 && ExtendsByReference(cfg.RoundAt(k), past[k], past[k + 1])
    ensures RoundFollows(env, s, cfg, past, i, k)
  {
    RoundMovesVolume(cfg.RoundAt(k), past[k], past[k + 1], i);
    PlanCountsVolume(env, s, cfg.RoundAt(k).time, past[k].volumes[i], BaseOf(cfg, past, i, k));
  }

  lemma CourseFollows(env: Env, s: Setup, cfg: RunCfg, past: seq<Store>, i: nat)
    requires s.Ok() && PastOk(cfg, past) && i < |cfg.scenarios|
    requires forall k: nat | k < |past| - 1 :: RoundFollows(env, s, cfg, past, i, k)
    ensures CourseOf(cfg, past, i, s.volume).Follows(s.volume)
  {
    var c := CourseOf(cfg, past, i, s.volume);
    forall k | 0 <= k < |c.rngs|
      ensures var (ph, m, _) := Advance(c.phases[k], c.rngs[k], s.volume);
              c.phases[k + 1] == ph && c.multipliers[k] == m
    {
      assert RoundFollows(env, s, cfg, past, i, k);
    }
  }

  lemma CourseExplained(env: Env, s: Setup, cfg: RunCfg, past: seq<Store>, i: nat) returns (es: seq<Episode>)
    requires s.Ok() && PastOk(cfg, past) && i < |cfg.scenarios| && past[0].volumes[i].remaining == 0
    requires forall k: nat | k < |past| - 1 :: RoundFollows(env, s, cfg, past, i, k)
    ensures VolumeExplained(env, s, cfg, past, i, es)
  {
    var c := CourseOf(cfg, past, i, s.volume);
    CourseFollows(env, s, cfg, past, i);
    forall k: nat | k < |past| - 1
      ensures Counts(s.logsPerInterval, CurveOf(env, s, cfg, k), c.multipliers[k], CountOf(cfg, past, i, k))
    {
      assert RoundFollows(env, s, cfg, past, i, k);
    }
    es := [];
    if s.volume.Some? {
      es := CoursesAreEpisodes(c, s.volume.value);
    }
  }

  lemma HistoryFollowsVolume(env: Env, s: Setup, cfg: RunCfg, past: seq<Store>, i: nat) returns (es: seq<Episode>)
    requires s.Ok() && env.interval > 0 && s.logsPerInterval > 0
    requires History(cfg, past) && i < |cfg.scenarios| && cfg.scenarios[i] == ScenarioOf(env, s)
    requires past[0].volumes[i].remaining == 0
    ensures VolumeExplained(env, s, cfg, past, i, es)
  {
    HistoryOk(cfg, past);
    forall k: nat | k < |past| - 1
      ensures RoundFollows(env, s, cfg, past, i, k)
    {
      RoundFollowsVolume(env, s, cfg, past, i, k);
    }
    es := CourseExplained(env, s, cfg, past, i);
  }

  /** On every schedule, the volume of an emitting scenario follows its burst state machine, from the idle state and
      the generator that the run begins with: the phases that the rounds leave are the machine's successive ones,
      each from the base generator where the round comes to the scenario, they make up episodes that last as many
      rounds as was drawn for them, and their multipliers are those of the rounds' counts. */
  lemma RunFollowsVolume(
      env: Env, setups: seq<Setup>, base: Rng, start: int, end: int, schedule: seq<RunChoice>, i: nat)
    returns (es: seq<Episode>)
    requires env.interval > 0 && forall j | 0 <= j < |setups| :: setups[j].Ok()
    requires i < |setups| && setups[i].logsPerInterval > 0
    ensures var cfg := RunOf(env, setups, base, start, end);
            var past := RunExec(cfg, Boot(cfg), schedule).past;
            && VolumeExplained(env, setups[i], cfg, past, i, es)
            && past[0].base == base && past[0].volumes[i].remaining == 0
  {
    var cfg := RunOf(env, setups, base, start, end);
    BootInv(cfg);
    RunKeeps(cfg, Boot(cfg), schedule);
    ScenariosKeepShape(env, setups);
    es := HistoryFollowsVolume(env, setups[i], cfg, RunExec(cfg, Boot(cfg), schedule).past, i);
  }
}
