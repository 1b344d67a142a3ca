/** From an accepted configuration to a receiver about to start, and what acceptance is good for. */
module Startup {
  import opened Rand
  import opened Records
  import opened Rounds
  import opened RoundTotal
  import opened Lifecycle
  import opened RunTotal
  import opened Emission
  import opened BatchOrder
  import opened OutputOrder
  import opened Receiver
  import opened Config
  import Diurnal
  import Generator
  import Skew
  import WorkShare
  import Weights

  /** What the templates and the tables of profiles provide for a scenario. */
  datatype Given = Given(profile: Generator.Profile, traced: bool, resources: seq<map<string, string>>)

  /** One resource an instance, and a profile that can be generated from. */
  predicate GivenFits(s: ScenarioInput, g: Given) {
    g.profile.Ok() && |g.resources| == s.scale
  }

  predicate AllFit(inputs: seq<ScenarioInput>, given: seq<Given>) {
    |given| == |inputs| && forall i | 0 <= i < |inputs| :: GivenFits(inputs[i], given[i])
  }

  // ----- what is set up

  function DiurnalSetup(diurnal: Option<Diurnal.Profile>): Option<Diurnal.Profile> {
    if diurnal.None? then None else Some(diurnal.value.Defaulted())
  }

  function ProfileSetup(s: ScenarioInput, g: Given): Generator.Profile {
    if s.severityWeights.None? then g.profile else g.profile.(weights := s.severityWeights.value)
  }

  function SetupOf(s: ScenarioInput, g: Given, multipliers: Option<seq<real>>): Setup {
    Setup(s.logsPerInterval, s.concurrency, s.scale, s.volume, DiurnalSetup(s.diurnal), multipliers, s.needles,
          s.emitTrace && g.traced, ProfileSetup(s, g), g.resources)
  }

  ghost function Multipliers(rng: Rng, scale: int, sigma: real, exp: real -> real): (r: (Option<seq<real>>, Rng))
    requires Skew.Positive(exp)
    ensures r.0.Some? ==>
              |r.0.value| == scale && Skew.AllPositive(r.0.value) && Skew.Total(r.0.value) == scale as real
  {
    if sigma == 0.0 || scale <= 0 then (None, rng)
    else
      var raw := Skew.RawMultipliers(rng, scale, sigma, exp);
      Skew.NormalisedMean(raw);
      (Some(Skew.Normalised(raw)), Skew.AfterNormals(rng, scale))
  }

  /** All scenarios: their multipliers are drawn one scenario after the other. */
  ghost function SetupsOf(inputs: seq<ScenarioInput>, given: seq<Given>, rng: Rng, exp: real -> real)
    : (r: (seq<Setup>, Rng))
    requires |given| == |inputs| && Skew.Positive(exp)
    ensures |r.0| == |inputs|
  {
    if inputs == [] then ([], rng)
    else
      var n := |inputs| - 1;
      var (front, r1) := SetupsOf(inputs[..n], given[..n], rng, exp);
      var (m, r2) := Multipliers(r1, inputs[n].scale, inputs[n].instanceVolumeSkew, exp);
      (front + [SetupOf(inputs[n], given[n], m)], r2)
  }

  // ----- the program's loops

  method DefaultDiurnal(diurnal: Option<Diurnal.Profile>) returns (ready: Option<Diurnal.Profile>)
    ensures ready == DiurnalSetup(diurnal)
  {
    if diurnal.None? {
      return None;
    }
    var cfg := new Diurnal.DiurnalProfileCfg(diurnal.value);
    cfg.ApplyDefaults();
    ready := Some(cfg.profile);
  }

  method PrepareProfile(s: ScenarioInput, g: Given) returns (prepared: Generator.PreparedProfile)
    requires g.profile.Ok()
    ensures fresh(prepared) && prepared.Valid() && prepared.profile == ProfileSetup(s, g)
  {
    prepared := new Generator.PreparedProfile(g.profile);
    if s.severityWeights.Some? {
      prepared.OverrideSeverityWeights(s.severityWeights.value);
    }
  }

  method BuildMultipliers(rng: Rng, scale: int, sigma: real, exp: real -> real)
    returns (m: Option<seq<real>>, next: Rng)
    requires scale >= 0 && Skew.Positive(exp)
    ensures (m, next) == Multipliers(rng, scale, sigma, exp)
  {
    var a, r := Skew.BuildInstanceMultipliers(rng, scale, sigma, exp);
    if a.None? {
      return None, r;
    }
    return Some(a.value[..]), r;
  }

  /** The first pass: everything but the multipliers. */
  method PrepareAll(inputs: seq<ScenarioInput>, given: seq<Given>)
    returns (plain: seq<Setup>, prepared: seq<Generator.PreparedProfile>)
    requires AllFit(inputs, given)
    ensures |plain| == |inputs| && |prepared| == |inputs|
    ensures forall i | 0 <= i < |inputs| :: plain[i] == SetupOf(inputs[i], given[i], None)
    ensures forall i | 0 <= i < |inputs| :: prepared[i].Valid() && prepared[i].profile == plain[i].profile
  {
    plain, prepared := [], [];
    for i := 0 to |inputs|
      invariant |plain| == i && |prepared| == i
      invariant forall k | 0 <= k < i :: plain[k] == SetupOf(inputs[k], given[k], None)
      invariant forall k | 0 <= k < i :: prepared[k].Valid() && prepared[k].profile == plain[k].profile
    {
      var s, g := inputs[i], given[i];
      assert GivenFits(s, g);
      var diurnal := DefaultDiurnal(s.diurnal);
      var p := PrepareProfile(s, g);
      prepared := prepared + [p];
      plain := plain + [Setup(s.logsPerInterval, s.concurrency, s.scale, s.volume, diurnal, None, s.needles,
                              s.emitTrace && g.traced, p.profile, g.resources)];
    }
  }

  /** The second pass: the multipliers of every scenario from the receiver's generator. */
  method DrawMultipliers(
      plain: seq<Setup>, inputs: seq<ScenarioInput>, given: seq<Given>, rng: Rng, exp: real -> real)
    returns (setups: seq<Setup>, next: Rng)
    requires AllFit(inputs, given) && Skew.Positive(exp) && |plain| == |inputs|
    requires forall i | 0 <= i < |inputs| :: plain[i] == SetupOf(inputs[i], given[i], None)
    ensures (setups, next) == SetupsOf(inputs, given, rng, exp)
  {
    setups, next := [], rng;
    for i := 0 to |inputs|
      invariant (setups, next) == SetupsOf(inputs[..i], given[..i], rng, exp)
    {
      OneMore(inputs, given, i, rng, exp);
      var m, r := BuildMultipliers(next, plain[i].scale, inputs[i].instanceVolumeSkew, exp);
      setups := setups + [plain[i].(multipliers := m)];
      next := r;
    }
    assert inputs[..|inputs|] == inputs && given[..|inputs|] == given;
  }

  /** Prepares every scenario, and then draws the multipliers of every scenario. */
  method Prepare(inputs: seq<ScenarioInput>, given: seq<Given>, rng: Rng, exp: real -> real)
    returns (setups: seq<Setup>, prepared: seq<Generator.PreparedProfile>, next: Rng)
    requires AllFit(inputs, given) && Skew.Positive(exp)
    ensures (setups, next) == SetupsOf(inputs, given, rng, exp)
    ensures |prepared| == |inputs|
    ensures forall i | 0 <= i < |inputs| :: prepared[i].Valid() && prepared[i].profile == setups[i].profile
  {
    var plain;
    plain, prepared := PrepareAll(inputs, given);
    setups, next := DrawMultipliers(plain, inputs, given, rng, exp);
    SetupsKeepProfiles(inputs, given, rng, exp);
  }

  lemma {:induction false} SetupsKeepProfiles(
      inputs: seq<ScenarioInput>, given: seq<Given>, rng: Rng, exp: real -> real)
    requires |given| == |inputs| && Skew.Positive(exp)
    ensures var setups := SetupsOf(inputs, given, rng, exp).0;
            forall i | 0 <= i < |inputs| :: setups[i].profile == ProfileSetup(inputs[i], given[i])
  {
    if inputs != [] {
      SetupsKeepProfiles(inputs[..|inputs| - 1], given[..|inputs| - 1], rng, exp);
    }
  }

  /** The draws that the multipliers of the first `n` scenarios take. */
  function MultiplierDraws(inputs: seq<ScenarioInput>, n: nat): seq<Call>
    requires n <= |inputs|
  {
    if n == 0 then []
    else
      var s := inputs[n - 1];
      MultiplierDraws(inputs, n - 1)
      + if s.instanceVolumeSkew == 0.0 || s.scale <= 0 then [] else Skew.Normals(s.scale)
  }

  /** The scenario is set up as it was configured. */
  ghost predicate SetUpAs(s: ScenarioInput, g: Given, setup: Setup) {
    && setup.logsPerInterval == s.logsPerInterval && setup.concurrency == s.concurrency && setup.scale == s.scale
    && setup.volume == s.volume && setup.needles == s.needles && setup.resources == g.resources
    && (setup.emitTrace <==> s.emitTrace && g.traced)
    && setup.diurnal == (if s.diurnal.None? then None else Some(s.diurnal.value.Defaulted()))
    && setup.profile.messages == g.profile.messages && setup.profile.longTail == g.profile.longTail
    && setup.profile.weights == if s.severityWeights.None? then g.profile.weights else s.severityWeights.value
  }

  lemma OneMore(inputs: seq<ScenarioInput>, given: seq<Given>, i: nat, rng: Rng, exp: real -> real)
    requires AllFit(inputs, given) && Skew.Positive(exp) && i < |inputs|
    ensures inputs[i].scale >= 0
    ensures var (front, r1) := SetupsOf(inputs[..i], given[..i], rng, exp);
            var (m, r2) := Multipliers(r1, inputs[i].scale, inputs[i].instanceVolumeSkew, exp);
            SetupsOf(inputs[..i + 1], given[..i + 1], rng, exp) == (front + [SetupOf(inputs[i], given[i], m)], r2)
  {
    assert inputs[..i + 1][..i] == inputs[..i] && given[..i + 1][..i] == given[..i];
    assert GivenFits(inputs[i], given[i]);
  }

  /** The generator when the draws `calls` have been made. */
  function Past(rng: Rng, calls: seq<Call>): Rng {
    rng.(calls := rng.calls + calls)
  }

  lemma MultipliersTake(rng: Rng, calls: seq<Call>, scale: int, sigma: real, exp: real -> real)
    requires Skew.Positive(exp)
    ensures Multipliers(Past(rng, calls), scale, sigma, exp).1
         == Past(rng, calls + if sigma == 0.0 || scale <= 0 then [] else Skew.Normals(scale))
  {
    if sigma == 0.0 || scale <= 0 {
      assert calls + [] == calls;
    } else {
      assert rng.calls + calls + Skew.Normals(scale) == rng.calls + (calls + Skew.Normals(scale));
    }
  }

  lemma {:induction false} DrawsOfPrefix(inputs: seq<ScenarioInput>, m: nat, n: nat)
    requires n <= m <= |inputs|
    ensures MultiplierDraws(inputs[..m], n) == MultiplierDraws(inputs, n)
  {
    if n > 0 {
      DrawsOfPrefix(inputs, m, n - 1);
    }
  }

  lemma LastSetup(inputs: seq<ScenarioInput>, given: seq<Given>, rng: Rng, exp: real -> real)
    requires |given| == |inputs| > 0 && Skew.Positive(exp)
    ensures var n := |inputs| - 1;
            var (front, r) := SetupsOf(inputs[..n], given[..n], rng, exp);
            var (m, next) := Multipliers(r, inputs[n].scale, inputs[n].instanceVolumeSkew, exp);
            var (setups, end) := SetupsOf(inputs, given, rng, exp);
            && end == next && setups[..n] == front && setups[n].multipliers == m
            && SetUpAs(inputs[n], given[n], setups[n])
  {
  }

  /** Every scenario is set up as it was configured, and the multipliers of the scenarios are drawn one scenario
      after the other, a normal value for every instance of a scenario with skew. */
  lemma {:induction false} SetupsFollowInputs(
      inputs: seq<ScenarioInput>, given: seq<Given>, rng: Rng, exp: real -> real, i: nat)
    requires |given| == |inputs| && Skew.Positive(exp) && i < |inputs|
    ensures var (setups, next) := SetupsOf(inputs, given, rng, exp);
            && next == Past(rng, MultiplierDraws(inputs, |inputs|))
            && SetUpAs(inputs[i], given[i], setups[i])
            && setups[i].multipliers == Multipliers(Past(rng, MultiplierDraws(inputs, i)), inputs[i].scale,
                                                    inputs[i].instanceVolumeSkew, exp).0
    decreases |inputs|
  {
    var n := |inputs| - 1;
    LastSetup(inputs, given, rng, exp);
    DrawsOfPrefix(inputs, n, n);
    MultipliersTake(rng, MultiplierDraws(inputs, n), inputs[n].scale, inputs[n].instanceVolumeSkew, exp);
    if n == 0 {
      assert Past(rng, []).calls == rng.calls && inputs[..0] == [] && given[..0] == [];
    } else {
      SetupsFollowInputs(inputs[..n], given[..n], rng, exp, if i < n then i else 0);
      if i < n {
        DrawsOfPrefix(inputs, n, i);
      }
    }
  }

  // ----- what acceptance is good for

  predicate Divides(s: Setup) {
    s.concurrency > 0 ==> s.scale % s.concurrency == 0
  }

  ghost predicate AllWork(setups: seq<Setup>) {
    forall i | 0 <= i < |setups| :: Works(setups[i])
  }

  lemma AllOk(setups: seq<Setup>)
    requires AllWork(setups)
    ensures forall i | 0 <= i < |setups| :: setups[i].Ok() && Divides(setups[i])
  {
    forall i | 0 <= i < |setups|
      ensures setups[i].Ok() && Divides(setups[i])
    {
      assert Works(setups[i]);
    }
  }

  /** What the theorems about the receiver ask of a scenario. */
  ghost predicate Works(s: Setup) {
    && s.Ok() && Divides(s)
    && (s.multipliers.Some? ==>
          Skew.AllPositive(s.multipliers.value) && Skew.Total(s.multipliers.value) == s.scale as real)
  }

  lemma AcceptedSetupWorks(s: ScenarioInput, g: Given, m: Option<seq<real>>, cidr: string -> bool)
    requires Acceptable(s, cidr) && GivenFits(s, g)
    requires m.Some? ==> |m.value| == s.scale && Skew.AllPositive(m.value) && Skew.Total(m.value) == s.scale as real
    ensures Works(SetupOf(s, g, m))
    ensures s.severityWeights.Some? ==> Weights.WeightsOk(SetupOf(s, g, m).profile.weights)
  {
    var p := ProfileSetup(s, g);
    assert p.messages == g.profile.messages && p.longTail == g.profile.longTail;
  }

  /** Every setup built from an accepted configuration works. */
  lemma {:induction false} AcceptedSetupsWork(
      inputs: seq<ScenarioInput>, given: seq<Given>, rng: Rng, exp: real -> real, cidr: string -> bool)
    requires AllAcceptable(inputs, cidr) && AllFit(inputs, given) && Skew.Positive(exp)
    ensures AllWork(SetupsOf(inputs, given, rng, exp).0)
  {
    if inputs != [] {
      var n := |inputs| - 1;
      assert AllFit(inputs[..n], given[..n]) by {
        assert forall i | 0 <= i < n :: GivenFits(inputs[i], given[i]);
      }
      AcceptedSetupsWork(inputs[..n], given[..n], rng, exp, cidr);
      var (front, r1) := SetupsOf(inputs[..n], given[..n], rng, exp);
      var (m, r2) := Multipliers(r1, inputs[n].scale, inputs[n].instanceVolumeSkew, exp);
      assert GivenFits(inputs[n], given[n]);
      AcceptedSetupWorks(inputs[n], given[n], m, cidr);
    }
  }

  /** The run of a receiver that was set up from a configuration. */
  ghost function RunOfInputs(
      env: Env, inputs: seq<ScenarioInput>, given: seq<Given>, rng: Rng, exp: real -> real, start: int, end: int)
    : (cfg: RunCfg)
    requires env.interval > 0 && |given| == |inputs| && Skew.Positive(exp)
    requires AllWork(SetupsOf(inputs, given, rng, exp).0)
    ensures cfg.Valid() && |cfg.scenarios| == |inputs|
  {
    var (setups, next) := SetupsOf(inputs, given, rng, exp);
    AllOk(setups);
    RunOf(env, setups, next, start, end)
  }

  /** On every schedule, a shutdown that waited for the run reports what was sent. */
  ghost predicate Reports(cfg: RunCfg, schedule: seq<RunChoice>)
    requires cfg.Valid()
  {
    var r := RunExec(cfg, Boot(cfg), schedule);
    r.shutdown.Merged? && r.shutdown.done.ClosedByRun? ==> FaithfulReport(cfg, r) && FaithfulCount(cfg, r)
  }

  /** The workers of a scenario do what one thread would do. */
  ghost predicate SharesItsWork(s: Scenario) {
    s.concurrency > 0 ==> forall logs :: WorkShare.AllJobs(s, logs, s.concurrency) == SequentialJobs(s, logs, s.scale)
  }

  /** Whatever configuration validation accepts: its setups work, every report of its runs is faithful, the
      number of records it reports is exact under the known condition, and the workers of every scenario share
      its work without loss. */
  lemma AcceptedConfigurationWorks(
      env: Env, inputs: seq<ScenarioInput>, given: seq<Given>, rng: Rng, exp: real -> real, cidr: string -> bool,
      start: int, end: int)
    requires env.interval > 0 && AllAcceptable(inputs, cidr) && AllFit(inputs, given) && Skew.Positive(exp)
    ensures AllWork(SetupsOf(inputs, given, rng, exp).0)
    ensures var cfg := RunOfInputs(env, inputs, given, rng, exp, start, end);
            && (forall schedule :: Reports(cfg, schedule))
            && ((forall schedule :: CountExact(cfg, schedule)) <==> SequentialFirst(cfg.scenarios) || start >= end)
            && (forall i | 0 <= i < |inputs| :: SharesItsWork(cfg.scenarios[i]))
  {
    AcceptedSetupsWork(inputs, given, rng, exp, cidr);
    var (setups, next) := SetupsOf(inputs, given, rng, exp);
    var cfg := RunOfInputs(env, inputs, given, rng, exp, start, end);
    AllOk(setups);
    forall schedule
      ensures Reports(cfg, schedule)
    {
      var r := RunExec(cfg, Boot(cfg), schedule);
      if r.shutdown.Merged? && r.shutdown.done.ClosedByRun? {
        ReportCountsWhatWasSent(env, setups, next, start, end, schedule);
      }
    }
    EachMeetsHypotheses(env, setups);
    CountExactIff(cfg);
    WorkIsShared(env, setups);
  }

  lemma WorkIsShared(env: Env, setups: seq<Setup>)
    requires env.interval > 0 && forall i | 0 <= i < |setups| :: setups[i].Ok() && Divides(setups[i])
    ensures forall i | 0 <= i < |setups| :: SharesItsWork(ScenariosOf(env, setups)[i])
  {
    ScenariosKeepShape(env, setups);
    forall i | 0 <= i < |setups|
      ensures SharesItsWork(ScenariosOf(env, setups)[i])
    {
      var s := ScenariosOf(env, setups)[i];
      if s.concurrency > 0 {
        forall logs
          ensures WorkShare.AllJobs(s, logs, s.concurrency) == SequentialJobs(s, logs, s.scale)
        {
          WorkShare.ConcurrencyKeepsTheWork(s, logs);
        }
      }
    }
  }

  // ----- identical output

  /** No two instances, of one scenario or of two, are given the same resource. */
  predicate DistinctGiven(given: seq<Given>) {
    forall i, idx, j, jdx |
      0 <= i < |given| && 0 <= idx < |given[i].resources| && 0 <= j < |given| && 0 <= jdx < |given[j].resources|
      && given[i].resources[idx] == given[j].resources[jdx] ::
      i == j && idx == jdx
  }

  /** The batches of an interval that are sent once a worker may have been spawned, one a thread. */
  function Competing(inputs: seq<ScenarioInput>): nat
    requires forall i | 0 <= i < |inputs| :: inputs[i].concurrency >= 0
  {
    if inputs == [] then 0
    else if inputs[0].logsPerInterval != 0 && inputs[0].concurrency > 0 then Threads(inputs)
    else Competing(inputs[1..])
  }

  function Threads(inputs: seq<ScenarioInput>): nat
    requires forall i | 0 <= i < |inputs| :: inputs[i].concurrency >= 0
  {
    if inputs == [] then 0
    else
      (if inputs[0].logsPerInterval == 0 then 0
       else if inputs[0].concurrency == 0 then 1
       else inputs[0].concurrency) + Threads(inputs[1..])
  }

  /** From the first concurrent scenario that emits on, none that emits has instances. */
  predicate NoneCompeting(inputs: seq<ScenarioInput>) {
    forall i, j | 0 <= i <= j < |inputs| && inputs[i].logsPerInterval != 0 && inputs[i].concurrency > 0 ::
      inputs[j].logsPerInterval == 0 || inputs[j].scale == 0
  }

  /** What the scenarios of a run keep of the configuration. */
  ghost predicate SameShape(inputs: seq<ScenarioInput>, scns: seq<Scenario>) {
    |inputs| == |scns| && forall i | 0 <= i < |inputs| ::
      && scns[i].logsPerInterval == inputs[i].logsPerInterval
      && scns[i].concurrency == inputs[i].concurrency && scns[i].scale == inputs[i].scale
  }

  lemma {:induction false} SetupsKeepShape(
      inputs: seq<ScenarioInput>, given: seq<Given>, rng: Rng, exp: real -> real, i: nat)
    requires |given| == |inputs| && Skew.Positive(exp) && i < |inputs|
    ensures var setup := SetupsOf(inputs, given, rng, exp).0[i];
            && setup.logsPerInterval == inputs[i].logsPerInterval && setup.concurrency == inputs[i].concurrency
            && setup.scale == inputs[i].scale && setup.resources == given[i].resources
    decreases |inputs|
  {
    if i < |inputs| - 1 {
      SetupsKeepShape(inputs[..|inputs| - 1], given[..|inputs| - 1], rng, exp, i);
    }
  }

  lemma {:induction false} BatchesOfShape(inputs: seq<ScenarioInput>, scns: seq<Scenario>, i: nat)
    requires SameShape(inputs, scns) && i <= |scns| && forall k | 0 <= k < |inputs| :: inputs[k].concurrency >= 0
    ensures BatchesFrom(scns, i) == Threads(inputs[i..]) && LateFrom(scns, i) == Competing(inputs[i..])
    decreases |scns| - i
  {
    if i < |scns| {
      BatchesOfShape(inputs, scns, i + 1);
      assert inputs[i..][0] == inputs[i] && inputs[i..][1..] == inputs[i + 1..];
    }
  }

  lemma OrderlyShape(inputs: seq<ScenarioInput>, scns: seq<Scenario>, cidr: string -> bool)
    requires SameShape(inputs, scns) && AllAcceptable(inputs, cidr)
    ensures Orderly(scns) <==> Competing(inputs) <= 1 || NoneCompeting(inputs)
  {
    BatchesOfShape(inputs, scns, 0);
    assert inputs[0..] == inputs;
    forall j | 0 <= j < |scns|
      ensures Busy(scns[j]) <==> inputs[j].logsPerInterval != 0 && inputs[j].scale > 0
    {
      assert Acceptable(inputs[j], cidr);
      BusyWhenDivides(inputs[j].scale, inputs[j].concurrency);
    }
    assert forall i | 0 <= i < |scns| ::
        Spawns(scns[i]) <==> inputs[i].logsPerInterval != 0 && inputs[i].concurrency > 0;
    assert forall i | 0 <= i < |inputs| :: Acceptable(inputs[i], cidr) && inputs[i].scale >= 0;
  }

  lemma BusyWhenDivides(scale: nat, concurrency: nat)
    requires concurrency > 0 ==> scale % concurrency == 0
    ensures concurrency > 0 ==> (scale / concurrency > 0 <==> scale > 0)
  {
  }

  lemma RunKeepsShape(
      env: Env, inputs: seq<ScenarioInput>, given: seq<Given>, rng: Rng, exp: real -> real, start: int, end: int)
    requires env.interval > 0 && |given| == |inputs| && Skew.Positive(exp)
    requires AllWork(SetupsOf(inputs, given, rng, exp).0)
    ensures SameShape(inputs, RunOfInputs(env, inputs, given, rng, exp, start, end).scenarios)
  {
    var setups := SetupsOf(inputs, given, rng, exp).0;
    AllOk(setups);
    ScenariosKeepShape(env, setups);
    forall i | 0 <= i < |inputs|
      ensures setups[i].logsPerInterval == inputs[i].logsPerInterval
      ensures setups[i].concurrency == inputs[i].concurrency && setups[i].scale == inputs[i].scale
    {
      SetupsKeepShape(inputs, given, rng, exp, i);
    }
  }

  lemma DistinctSetups(inputs: seq<ScenarioInput>, given: seq<Given>, rng: Rng, exp: real -> real)
    requires |given| == |inputs| && Skew.Positive(exp) && DistinctGiven(given)
    ensures DistinctResources(SetupsOf(inputs, given, rng, exp).0)
  {
    var setups := SetupsOf(inputs, given, rng, exp).0;
    forall i | 0 <= i < |inputs|
      ensures setups[i].resources == given[i].resources
    {
      SetupsKeepShape(inputs, given, rng, exp, i);
    }
  }

  /** Same seed and same configuration give identical output, to the order of the batches, exactly when at most
      one batch of an interval competes with a worker's, or none of those that do holds a record, or there is no
      interval to simulate: for every accepted configuration whose instances have resources of their own. */
  lemma AcceptedOutputIdenticalIff(
      env: Env, inputs: seq<ScenarioInput>, given: seq<Given>, rng: Rng, exp: real -> real, cidr: string -> bool,
      start: int, end: int)
    requires env.interval > 0 && AllAcceptable(inputs, cidr) && AllFit(inputs, given) && Skew.Positive(exp)
    requires DistinctGiven(given)
    ensures AllWork(SetupsOf(inputs, given, rng, exp).0)
    ensures OutputIdentical(RunOfInputs(env, inputs, given, rng, exp, start, end))
            <==> Competing(inputs) <= 1 || NoneCompeting(inputs) || start >= end
  {
    AcceptedSetupsWork(inputs, given, rng, exp, cidr);
    var (setups, next) := SetupsOf(inputs, given, rng, exp);
    var cfg := RunOfInputs(env, inputs, given, rng, exp, start, end);
    AllOk(setups);
    EachMeetsHypotheses(env, setups);
    DistinctSetups(inputs, given, rng, exp);
    ResourcesDistinguish(env, setups);
    OutputIdenticalIff(cfg);
    RunKeepsShape(env, inputs, given, rng, exp, start, end);
    OrderlyShape(inputs, cfg.scenarios, cidr);
  }

  /** One scenario of two instances, simulated by a worker each. */
  function TwoWorkers(): seq<ScenarioInput> {
    [ScenarioInput(2, 2, 1, false, [], None, None, None, None, 0.0)]
  }

  function TwoInstances(): seq<Given> {
    [Given(Generator.Profile([], [0, 0, 0, 0, 0, 100], None), false,
           [map["service.instance.id" := "0"], map["service.instance.id" := "1"]])]
  }

  /** It is accepted, and its output can differ from run to run. */
  lemma OutputCanDiffer(
      env: Env, rng: Rng, exp: real -> real, cidr: string -> bool, start: int, end: int)
    requires env.interval > 0 && Skew.Positive(exp) && start < end
    ensures AllAcceptable(TwoWorkers(), cidr) && AllFit(TwoWorkers(), TwoInstances())
    ensures AllWork(SetupsOf(TwoWorkers(), TwoInstances(), rng, exp).0)
    ensures !OutputIdentical(RunOfInputs(env, TwoWorkers(), TwoInstances(), rng, exp, start, end))
  {
    var inputs, given := TwoWorkers(), TwoInstances();
    assert Acceptable(inputs[0], cidr);
    assert map["service.instance.id" := "0"]["service.instance.id"]
        != map["service.instance.id" := "1"]["service.instance.id"];
    assert DistinctGiven(given);
    AcceptedOutputIdenticalIff(env, inputs, given, rng, exp, cidr, start, end);
    assert inputs[1..] == [] && Threads(inputs) == 2;
  }

  /** Skew keeps the volume of an accepted scenario, to rounding. */
  lemma AcceptedSkewKeepsVolume(s: Setup, base: int)
    requires Works(s) && base >= 1 && s.multipliers.Some?
    ensures 2 * base * s.scale - s.scale <= 2 * Skew.TotalLogs(base, s.multipliers.value)
    ensures s.scale <= Skew.TotalLogs(base, s.multipliers.value) <= base * s.scale + s.scale
  {
    Skew.SkewPreservesVolume(base, s.multipliers.value);
  }
}
