/** Validation of the configuration. */
module Config {
  import opened Records
  import opened Volume
  import Diurnal
  import Weights
  import Emission

  datatype VolumeError =
    | BurstProbability | QuietProbability | ProbabilitySum
    | BurstMultiplierMin | BurstMultiplierMax | BurstDurationMin | BurstDurationMax
    | QuietMultiplier | QuietDurationMin | QuietDurationMax

  /** The first check that fails, in the program's order. */
  function ValidateVolumeProfile(vp: Option<VolumeProfile>): (err: Option<VolumeError>)
    ensures err.None? <==> ProfileOk(vp)
  {
    if vp.None? then None
    else
      var p := vp.value;
      if p.burstProbability < 0.0 || p.burstProbability > 1.0 then Some(BurstProbability)
      else if p.quietProbability < 0.0 || p.quietProbability > 1.0 then Some(QuietProbability)
      else if p.burstProbability + p.quietProbability > 1.0 then Some(ProbabilitySum)
      else if p.burstMultiplierMin < 0.0 then Some(BurstMultiplierMin)
      else if p.burstMultiplierMax < p.burstMultiplierMin then Some(BurstMultiplierMax)
      else if p.burstDurationMin < 1 && p.burstProbability > 0.0 then Some(BurstDurationMin)
      else if p.burstDurationMax < p.burstDurationMin then Some(BurstDurationMax)
      else if p.quietMultiplier < 0.0 then Some(QuietMultiplier)
      else if p.quietDurationMin < 1 && p.quietProbability > 0.0 then Some(QuietDurationMin)
      else if p.quietDurationMax < p.quietDurationMin then Some(QuietDurationMax)
      else None
  }

  // ----- needles

  /** White space as `strings.TrimSpace` sees it in Latin-1 text. */
  predicate IsSpace(c: char) {
    c == ' ' || '\t' <= c <= '\r' || c == '\U{0085}' || c == '\U{00A0}'
  }

  function TrimRight(s: string): string {
    if s != "" && IsSpace(s[|s| - 1]) then TrimRight(s[..|s| - 1]) else s
  }

  function TrimSpace(s: string): string {
    if s != "" && IsSpace(s[0]) then TrimSpace(s[1..]) else TrimRight(s)
  }

  predicate AllSpace(s: string) {
    forall i | 0 <= i < |s| :: IsSpace(s[i])
  }

  lemma {:induction false} TrimRightCuts(s: string) returns (b: string)
    ensures s == TrimRight(s) + b && AllSpace(b)
    ensures TrimRight(s) != "" ==> !IsSpace(TrimRight(s)[|TrimRight(s)| - 1])
    ensures s != "" && !IsSpace(s[0]) ==> TrimRight(s) != "" && TrimRight(s)[0] == s[0]
  {
    if s != "" && IsSpace(s[|s| - 1]) {
      var n := |s| - 1;
      b := TrimRightCuts(s[..n]);
      b := b + [s[n]];
      assert s == s[..n] + [s[n]];
    } else {
      b := "";
    }
  }

  /** Trimming cuts the white space off both ends, and nothing else. */
  lemma {:induction false} TrimSpaceCuts(s: string) returns (a: string, b: string)
    ensures var t := TrimSpace(s);
            && s == a + t + b && AllSpace(a) && AllSpace(b)
            && (t != "" ==> !IsSpace(t[0]) && !IsSpace(t[|t| - 1]))
  {
    if s != "" && IsSpace(s[0]) {
      a, b := TrimSpaceCuts(s[1..]);
      a := [s[0]] + a;
      assert s == [s[0]] + s[1..];
    } else {
      a := "";
      b := TrimRightCuts(s);
    }
  }

  predicate NeedleOk(n: Emission.Needle) {
    && n.name != "" && n.message != ""
    && 0.0 <= n.rate <= 1.0
    && SeverityAccepted(n.severity)
  }

  predicate SeverityAccepted(s: string) {
    var sev := Emission.Upper(TrimSpace(s));
    sev == "" || Emission.NamedSeverity(sev).Some?
  }

  /** The severity that an accepted text names: an error, if it is blank. */
  function Intended(s: string): Severity {
    match Emission.NamedSeverity(Emission.Upper(TrimSpace(s)))
    case Some(sev) => sev
    case None => Error
  }

  lemma TrimIsShorter(s: string)
    ensures |TrimSpace(s)| <= |s| && |TrimRight(s)| <= |s|
    ensures TrimSpace(s) != s ==> s != "" && (IsSpace(s[0]) || IsSpace(s[|s| - 1]))
  {
  }

  /** No name of a severity begins or ends with white space. */
  lemma NamesHaveNoSpace(s: string)
    requires Emission.NamedSeverity(Emission.Upper(s)).Some?
    ensures s != "" && !IsSpace(s[0]) && !IsSpace(s[|s| - 1])
  {
    var u := Emission.Upper(s);
    assert |u| == |s| && |u| > 0;
    assert u[0] == Emission.UpperChar(s[0]) && u[|u| - 1] == Emission.UpperChar(s[|s| - 1]);
  }

  /** Validation trims the severity of a needle but generation does not: the record gets the severity that
      was accepted exactly when there was nothing to trim or the severity is that of an error anyway. */
  lemma NeedleSeverityAsAccepted(s: string)
    requires SeverityAccepted(s)
    ensures Emission.ParseSeverity(s) == Intended(s) <==> TrimSpace(s) == s || Intended(s) == Error
  {
    TrimIsShorter(s);
    if TrimSpace(s) != s && Emission.NamedSeverity(Emission.Upper(s)).Some? {
      NamesHaveNoSpace(s);
    }
  }

  /** A padded name passes validation, and its records come out as errors. */
  lemma PaddedSeverityIsMisread()
    ensures SeverityAccepted(" info") && Intended(" info") == Info && Emission.ParseSeverity(" info") == Error
  {
    assert " info"[1..] == "info";
    assert TrimRight("info") == "info" && TrimSpace("info") == "info" && TrimSpace(" info") == "info";
    assert Emission.Upper("info") == "INFO";
    assert Emission.Upper(" info")[0] == ' ';
  }

  // ----- scenarios

  type SixWeights = w: seq<int> | |w| == 6 witness [0, 0, 0, 0, 0, 100]

  datatype IPPool = IPPool(cidrs: seq<string>, zipfSkew: real)

  /** A scenario as it is written in the configuration. */
  datatype ScenarioInput = ScenarioInput(
    scale: int, concurrency: int, logsPerInterval: int, emitTrace: bool, needles: seq<Emission.Needle>,
    volume: Option<VolumeProfile>, diurnal: Option<Diurnal.Profile>, severityWeights: Option<SixWeights>,
    ipPool: Option<IPPool>, instanceVolumeSkew: real)

  predicate NeedlesOk(needles: seq<Emission.Needle>) {
    forall i | 0 <= i < |needles| :: NeedleOk(needles[i])
  }

  /** `cidr` tells which texts denote address blocks. */
  predicate IPPoolOk(pool: IPPool, cidr: string -> bool) {
    && (forall i | 0 <= i < |pool.cidrs| :: cidr(pool.cidrs[i]))
    && (pool.zipfSkew == 0.0 || pool.zipfSkew > 1.0)
  }

  /** What validation asks of a scenario; `Startup.AcceptedConfigurationWorks` is what it is good for. */
  predicate Acceptable(s: ScenarioInput, cidr: string -> bool) {
    && s.scale >= 0 && s.concurrency >= 0 && s.logsPerInterval >= 0
    && (s.concurrency > 0 ==> s.scale % s.concurrency == 0)
    && NeedlesOk(s.needles)
    && ProfileOk(s.volume)
    && (s.diurnal.Some? ==> s.diurnal.value.Accepted())
    && (s.severityWeights.Some? ==> Weights.WeightsOk(s.severityWeights.value))
    && (s.ipPool.Some? ==> IPPoolOk(s.ipPool.value, cidr))
    && s.instanceVolumeSkew >= 0.0
  }

  predicate AllAcceptable(scns: seq<ScenarioInput>, cidr: string -> bool) {
    forall i | 0 <= i < |scns| :: Acceptable(scns[i], cidr)
  }

  datatype ScenarioError =
    | Scale | Concurrency | NotMultiple | LogsPerInterval | BadNeedle(k: nat)
    | BadVolume(v: VolumeError) | BadDiurnal(d: Diurnal.ProfileError) | BadWeights(w: Weights.WeightError)
    | BadCIDR(k: nat) | ZipfSkew | Skew

  /** Go's remainder for a non-negative dividend. */
  function Remainder(a: int, b: int): int
    requires a >= 0 && b != 0
  {
    if b > 0 then a % b else a % (-b)
  }

  /** What the error says is so: it names a check that fails, and of needles and blocks the first that fails it. */
  predicate Blames(e: ScenarioError, s: ScenarioInput, cidr: string -> bool) {
    match e
    case Scale => s.scale < 0
    case Concurrency => s.concurrency < 0
    case NotMultiple => s.scale > 0 && s.concurrency != 0 && Remainder(s.scale, s.concurrency) != 0
    case LogsPerInterval => s.logsPerInterval < 0
    case BadNeedle(k) => BlamesNeedle(e, s.needles)
    case BadVolume(v) => ValidateVolumeProfile(s.volume) == Some(v)
    case BadDiurnal(d) => s.diurnal.Some? && Diurnal.Blames(d, s.diurnal.value)
    case BadWeights(w) => s.severityWeights.Some? && Weights.Blames(w, s.severityWeights.value)
    case BadCIDR(_) => s.ipPool.Some? && BlamesPool(e, s.ipPool.value, cidr)
    case ZipfSkew => s.ipPool.Some? && BlamesPool(e, s.ipPool.value, cidr)
    case Skew => s.instanceVolumeSkew < 0.0
  }

  predicate BlamesNeedle(e: ScenarioError, needles: seq<Emission.Needle>) {
    && e.BadNeedle? && e.k < |needles| && !NeedleOk(needles[e.k])
    && forall i | 0 <= i < e.k :: NeedleOk(needles[i])
  }

  predicate BlamesPool(e: ScenarioError, pool: IPPool, cidr: string -> bool) {
    match e
    case BadCIDR(k) => k < |pool.cidrs| && !cidr(pool.cidrs[k]) && forall i | 0 <= i < k :: cidr(pool.cidrs[i])
    case ZipfSkew => pool.zipfSkew != 0.0 && pool.zipfSkew <= 1.0
    case _ => false
  }

  method ValidateIPPool(ip: Option<IPPool>, cidr: string -> bool) returns (err: Option<ScenarioError>)
    ensures err.None? <==> ip.None? || IPPoolOk(ip.value, cidr)
    ensures err.Some? ==> ip.Some? && BlamesPool(err.value, ip.value, cidr)
  {
    if ip.None? {
      return None;
    }
    var pool := ip.value;
    for k := 0 to |pool.cidrs|
      invariant forall i | 0 <= i < k :: cidr(pool.cidrs[i])
    {
      if !cidr(pool.cidrs[k]) {
        return Some(BadCIDR(k));
      }
    }
    if pool.zipfSkew != 0.0 && pool.zipfSkew <= 1.0 {
      return Some(ZipfSkew);
    }
    err := None;
  }

  method ValidateNeedles(needles: seq<Emission.Needle>) returns (err: Option<ScenarioError>)
    ensures err.None? <==> NeedlesOk(needles)
    ensures err.Some? ==> BlamesNeedle(err.value, needles)
  {
    for k := 0 to |needles|
      invariant forall i | 0 <= i < k :: NeedleOk(needles[i])
    {
      var n := needles[k];
      var sev := Emission.Upper(TrimSpace(n.severity));
      if n.name == "" || n.message == "" || n.rate < 0.0 || n.rate > 1.0
         || (sev != "" && Emission.NamedSeverity(sev).None?) {
        assert !NeedleOk(n);
        return Some(BadNeedle(k));
      }
    }
    err := None;
  }

  method ValidateScenario(s: ScenarioInput, cidr: string -> bool) returns (err: Option<ScenarioError>)
    ensures err.None? <==> Acceptable(s, cidr)
    ensures err.Some? ==> Blames(err.value, s, cidr)
  {
    if s.scale < 0 {
      return Some(Scale);
    }
    if s.concurrency != 0 && s.scale > 0 && Remainder(s.scale, s.concurrency) != 0 {
      return Some(NotMultiple);
    }
    if s.concurrency < 0 {
      return Some(Concurrency);
    }
    if s.logsPerInterval < 0 {
      return Some(LogsPerInterval);
    }
    err := ValidateNeedles(s.needles);
    if err.Some? {
      return;
    }
    var v := ValidateVolumeProfile(s.volume);
    if v.Some? {
      return Some(BadVolume(v.value));
    }
    var d := Diurnal.Validate(s.diurnal);
    if d.Some? {
      return Some(BadDiurnal(d.value));
    }
    var w := Weights.ValidateSeverityWeights(s.severityWeights);
    if w.Some? {
      return Some(BadWeights(w.value));
    }
    err := ValidateIPPool(s.ipPool, cidr);
    if err.Some? {
      return;
    }
    if s.instanceVolumeSkew < 0.0 {
      return Some(Skew);
    }
  }

  /** The first scenario that is not acceptable is reported, and only if there is one. */
  method ValidateScenarios(scns: seq<ScenarioInput>, cidr: string -> bool) returns (err: Option<(nat, ScenarioError)>)
    ensures err.None? <==> AllAcceptable(scns, cidr)
    ensures err.Some? ==>
              && err.value.0 < |scns| && !Acceptable(scns[err.value.0], cidr)
              && Blames(err.value.1, scns[err.value.0], cidr)
              && forall k | 0 <= k < err.value.0 :: Acceptable(scns[k], cidr)
  {
    for i := 0 to |scns|
      invariant forall k | 0 <= k < i :: Acceptable(scns[k], cidr)
    {
      var e := ValidateScenario(scns[i], cidr);
      if e.Some? {
        return Some((i, e.value));
      }
    }
    err := None;
  }

  // ----- the configuration

  const SECOND: int := 1_000_000_000

  /** Times and durations in nanoseconds; `profile` names a built-in list of scenarios. */
  datatype ConfigInput = ConfigInput(
    interval: int, startTime: int, endTime: int, profile: string, scenarios: seq<ScenarioInput>)

  /** The built-in profiles by name, or nothing if they cannot be loaded. */
  type Builtins = Option<map<string, seq<ScenarioInput>>>

  datatype ConfigError =
    | Interval | StartAfterEnd | ProfileAndScenarios | NeitherProfileNorScenarios
    | NotLoaded | UnknownProfile | EmptyProfile | BadScenario(i: nat, e: ScenarioError)

  /** The scenarios that will be run. */
  function EffectiveScenarios(cfg: ConfigInput, builtins: Builtins): Option<seq<ScenarioInput>> {
    if cfg.profile == "" then Some(cfg.scenarios)
    else if builtins.Some? && cfg.profile in builtins.value then Some(builtins.value[cfg.profile])
    else None
  }

  /** What the error says is so, and of scenarios it names the first that is not acceptable. */
  predicate BlamesConfig(e: ConfigError, cfg: ConfigInput, builtins: Builtins, cidr: string -> bool) {
    match e
    case Interval => cfg.interval < SECOND
    case StartAfterEnd => cfg.startTime > cfg.endTime
    case ProfileAndScenarios => cfg.profile != "" && cfg.scenarios != []
    case NeitherProfileNorScenarios => cfg.profile == "" && cfg.scenarios == []
    case NotLoaded => cfg.profile != "" && builtins.None?
    case UnknownProfile => cfg.profile != "" && builtins.Some? && cfg.profile !in builtins.value
    case EmptyProfile => cfg.profile != "" && EffectiveScenarios(cfg, builtins) == Some([])
    case BadScenario(i, e') =>
      && EffectiveScenarios(cfg, builtins).Some?
      && var scns := EffectiveScenarios(cfg, builtins).value;
      && i < |scns| && !Acceptable(scns[i], cidr) && Blames(e', scns[i], cidr)
      && forall k | 0 <= k < i :: Acceptable(scns[k], cidr)
  }

  /** Validation accepts a configuration exactly when it makes sense, names one source of scenarios and not
      two, and this source has scenarios, all of them acceptable. */
  method ValidateConfig(cfg: ConfigInput, builtins: Builtins, cidr: string -> bool) returns (err: Option<ConfigError>)
    ensures err.None? <==>
              && cfg.interval >= SECOND && cfg.startTime <= cfg.endTime
              && (cfg.profile == "" || cfg.scenarios == [])
              && var scns := EffectiveScenarios(cfg, builtins);
              && scns.Some? && scns.value != [] && AllAcceptable(scns.value, cidr)
    ensures err.Some? ==> BlamesConfig(err.value, cfg, builtins, cidr)
  {
    if cfg.interval < SECOND {
      return Some(Interval);
    }
    if cfg.startTime > cfg.endTime {
      return Some(StartAfterEnd);
    }
    var hasProfile, hasScenarios := cfg.profile != "", |cfg.scenarios| > 0;
    if hasProfile && hasScenarios {
      return Some(ProfileAndScenarios);
    }
    if !hasProfile && !hasScenarios {
      return Some(NeitherProfileNorScenarios);
    }
    var scns := cfg.scenarios;
    if hasProfile {
      if builtins.None? {
        return Some(NotLoaded);
      }
      if cfg.profile !in builtins.value {
        return Some(UnknownProfile);
      }
      scns := builtins.value[cfg.profile];
      if |scns| == 0 {
        return Some(EmptyProfile);
      }
    }
    var e := ValidateScenarios(scns, cidr);
    if e.Some? {
      return Some(BadScenario(e.value.0, e.value.1));
    }
    err := None;
  }
}
