/** The time-of-day curve and its periodic bursts.

`float64` is modelled by `real`; of the cosine only the few facts in `Wave.Valid` are used. */
module Diurnal {
  import opened Records

  datatype Wave = Wave(pi: real, cos: real -> real) {
    ghost predicate Valid() {
      && pi > 0.0
      && cos(0.0) == 1.0 && cos(pi) == -1.0
      && (forall x, y | 0.0 <= x <= y <= pi :: cos(y) <= cos(x))
      && (forall x | pi <= x <= 2.0 * pi :: cos(x) == cos(2.0 * pi - x))
    }
  }

  datatype CronBurst = CronBurst(interval: int, multiplier: real, duration: int) {
    predicate Ok() {
      interval > 0 && multiplier > 0.0 && 0 < duration < interval
    }
  }

  datatype Profile = Profile(
    peakHour: int, troughHour: int, peakMultiplier: real, troughMultiplier: real, bursts: seq<CronBurst>)
  {
    /** What the curve needs: hours of a day that differ. */
    predicate Ready() {
      && 0 <= peakHour < 24 && 0 <= troughHour < 24 && peakHour != troughHour
      && forall i | 0 <= i < |bursts| :: bursts[i].Ok()
    }

    /** What validation asks of the profile as it is written in the configuration. */
    predicate Accepted() {
      && (peakHour != 0 || troughHour != 0 ==>
            0 <= peakHour < 24 && 0 <= troughHour < 24 && peakHour != troughHour)
      && forall i | 0 <= i < |bursts| :: bursts[i].Ok()
    }

    /** The defaults that the receiver fills in before it uses the profile. */
    function Defaulted(): Profile {
      Profile(
        if peakHour == 0 && troughHour == 0 then 14 else peakHour,
        if peakHour == 0 && troughHour == 0 then 4 else troughHour,
        if peakMultiplier <= 0.0 then 3.0 else peakMultiplier,
        if troughMultiplier <= 0.0 then 0.2 else troughMultiplier,
        bursts)
    }
  }

  datatype ProfileError =
    | PeakHour | TroughHour | SameHours
    | BurstInterval(i: nat) | BurstMultiplier(i: nat) | BurstDuration(i: nat)

  /** The configured profile, which the receiver updates in place. */
  class DiurnalProfileCfg {
    var profile: Profile

    constructor (p: Profile)
      ensures profile == p
    {
      profile := p;
    }

    /** Fills in what is missing and nothing else: the profile is ready exactly when validation has accepted
        it, its multipliers are positive, the second application changes nothing, and a profile that is ready
        keeps its curve. */
    method ApplyDefaults()
      modifies this
      ensures profile == old(profile).Defaulted()
      ensures profile.Ready() <==> old(profile).Accepted()
      ensures profile.peakMultiplier > 0.0 && profile.troughMultiplier > 0.0
      ensures profile.Defaulted() == profile
      ensures old(profile).Ready() ==> SameCurve(old(profile), profile)
    {
      ghost var before := profile;
      if profile.peakHour == 0 && profile.troughHour == 0 {
        profile := profile.(peakHour := 14, troughHour := 4);
      }
      if profile.peakMultiplier <= 0.0 {
        profile := profile.(peakMultiplier := 3.0);
      }
      if profile.troughMultiplier <= 0.0 {
        profile := profile.(troughMultiplier := 0.2);
      }
      if before.Ready() {
        DefaultsKeepTheCurve(before);
      }
    }
  }

  /** What the error says is so, of the hours after defaulting and of the first burst that is not in order. */
  predicate Blames(e: ProfileError, p: Profile) {
    var q := p.Defaulted();
    match e
    case PeakHour => q.peakHour < 0 || q.peakHour > 23
    case TroughHour => q.troughHour < 0 || q.troughHour > 23
    case SameHours => q.peakHour == q.troughHour
    case BurstInterval(i) => FirstBad(p.bursts, i) && p.bursts[i].interval <= 0
    case BurstMultiplier(i) => FirstBad(p.bursts, i) && p.bursts[i].multiplier <= 0.0
    case BurstDuration(i) => FirstBad(p.bursts, i) && !(0 < p.bursts[i].duration < p.bursts[i].interval)
  }

  predicate FirstBad(bursts: seq<CronBurst>, i: nat) {
    i < |bursts| && !bursts[i].Ok() && forall k | 0 <= k < i :: bursts[k].Ok()
  }

  /** Validation accepts exactly the profiles that defaulting makes ready, and changes nothing. */
  method Validate(cfg: Option<Profile>) returns (err: Option<ProfileError>)
    ensures err.None? <==> cfg.None? || cfg.value.Accepted()
    ensures err.None? <==> cfg.None? || cfg.value.Defaulted().Ready()
    ensures err.Some? ==> cfg.Some? && Blames(err.value, cfg.value)
  {
    if cfg.None? {
      return None;
    }
    var p := cfg.value;
    var peak, trough := p.peakHour, p.troughHour;
    if peak == 0 && trough == 0 {
      peak, trough := 14, 4;
    }
    if peak < 0 || peak > 23 {
      return Some(PeakHour);
    }
    if trough < 0 || trough > 23 {
      return Some(TroughHour);
    }
    if peak == trough {
      return Some(SameHours);
    }
    for i := 0 to |p.bursts|
      invariant forall k | 0 <= k < i :: p.bursts[k].Ok()
    {
      var cb := p.bursts[i];
      if cb.interval <= 0 {
        assert !cb.Ok();
        return Some(BurstInterval(i));
      }
      if cb.multiplier <= 0.0 {
        assert !cb.Ok();
        return Some(BurstMultiplier(i));
      }
      if cb.duration <= 0 || cb.duration >= cb.interval {
        assert !cb.Ok();
        return Some(BurstDuration(i));
      }
    }
    err := None;
  }

  // ----- the curve

  /** Hours since the peak hour, around the clock. */
  function Phase(hour: int, peakHour: int): (p: nat)
    requires 0 <= hour < 24 && 0 <= peakHour < 24
    ensures p < 24
  {
    (hour - peakHour + 24) % 24
  }

  lemma PhaseOfHours(hour: int, peakHour: int)
    requires 0 <= hour < 24 && 0 <= peakHour < 24
    ensures Phase(hour, peakHour) == if hour >= peakHour then hour - peakHour else hour - peakHour + 24
  {
  }

  function Fraction(a: nat, b: nat): real
    requires b > 0
  {
    a as real / b as real
  }

  lemma FractionOrder(a: nat, a': nat, b: nat)
    requires b > 0 && a <= a'
    ensures Fraction(a, b) <= Fraction(a', b)
    ensures a < a' ==> Fraction(a, b) < Fraction(a', b)
    ensures a < b ==> Fraction(a, b) < 1.0
    ensures a > 0 ==> Fraction(a, b) > 0.0
    ensures Fraction(0, b) == 0.0 && Fraction(b, b) == 1.0
  {
    var x, y := a as real, b as real;
    assert Fraction(a', b) == Fraction(a, b) + (a' - a) as real / y;
    Quotient((a' - a) as real, y);
    Quotient(x, y);
  }

  lemma Quotient(x: real, y: real)
    requires x >= 0.0 && y > 0.0
    ensures x / y >= 0.0 && y / y == 1.0
    ensures x < y ==> x / y < 1.0
    ensures x > 0.0 ==> x / y > 0.0
  {
    if x < y {
      assert y / y == x / y + (y - x) / y;
      assert (y - x) / y > 0.0;
    }
  }

  function Scale(pi: real, f: real): real {
    pi * f
  }

  lemma ScaleOrder(pi: real, f: real, g: real)
    requires pi > 0.0
    ensures f <= g ==> Scale(pi, f) <= Scale(pi, g)
    ensures f < g ==> Scale(pi, f) < Scale(pi, g)
    ensures Scale(pi, 0.0) == 0.0 && Scale(pi, 1.0) == pi
  {
    if f < g {
      assert pi * (g - f) > 0.0;
      assert pi * g == pi * f + pi * (g - f);
    }
  }

  /** From 0 at the peak to pi at the trough, and on to 2 pi. */
  function Angle(w: Wave, phase: nat, troughPhase: nat): real
    requires phase < 24 && 0 < troughPhase < 24
  {
    if phase <= troughPhase then Scale(w.pi, Fraction(phase, troughPhase))
    else w.pi + Scale(w.pi, Fraction(phase - troughPhase, 24 - troughPhase))
  }

  /** The angle is 0 exactly at the peak, pi exactly at the trough, and grows from hour to hour below 2 pi. */
  lemma AngleShape(w: Wave, p: nat, q: nat, t: nat)
    requires w.pi > 0.0 && p < 24 && q < 24 && 0 < t < 24
    ensures 0.0 <= Angle(w, p, t) < 2.0 * w.pi
    ensures Angle(w, p, t) == 0.0 <==> p == 0
    ensures Angle(w, p, t) == w.pi <==> p == t
    ensures p <= t <==> Angle(w, p, t) <= w.pi
    ensures p < q <==> Angle(w, p, t) < Angle(w, q, t)
  {
    AngleOne(w, p, t);
    AngleOne(w, q, t);
    AngleGrows(w, p, q, t);
    AngleGrows(w, q, p, t);
  }

  lemma AngleGrows(w: Wave, p: nat, q: nat, t: nat)
    requires w.pi > 0.0 && p < 24 && q < 24 && 0 < t < 24
    ensures p < q ==> Angle(w, p, t) < Angle(w, q, t)
  {
    AngleOne(w, p, t);
    AngleOne(w, q, t);
    if p < q {
      if q <= t {
        FractionOrder(p, q, t);
        ScaleOrder(w.pi, Fraction(p, t), Fraction(q, t));
      } else if p > t {
        FractionOrder(p - t, q - t, 24 - t);
        ScaleOrder(w.pi, Fraction(p - t, 24 - t), Fraction(q - t, 24 - t));
      }
    }
  }

  lemma AngleOne(w: Wave, p: nat, t: nat)
    requires w.pi > 0.0 && p < 24 && 0 < t < 24
    ensures 0.0 <= Angle(w, p, t) < 2.0 * w.pi
    ensures Angle(w, p, t) == 0.0 <==> p == 0
    ensures Angle(w, p, t) == w.pi <==> p == t
    ensures p <= t <==> Angle(w, p, t) <= w.pi
  {
    if p <= t {
      FractionOrder(p, p, t);
      FractionOrder(0, 0, t);
      ScaleOrder(w.pi, 0.0, Fraction(p, t));
      ScaleOrder(w.pi, Fraction(p, t), 1.0);
    } else {
      FractionOrder(p - t, p - t, 24 - t);
      ScaleOrder(w.pi, 0.0, Fraction(p - t, 24 - t));
      ScaleOrder(w.pi, Fraction(p - t, 24 - t), 1.0);
    }
  }

  /** From hour to hour the angle grows by the same step on the way down, and by the same on the way up. */
  lemma AngleSteps(w: Wave, p: nat, t: nat)
    requires w.pi > 0.0 && p < 23 && 0 < t < 24
    ensures p + 1 <= t ==> Angle(w, p + 1, t) - Angle(w, p, t) == w.pi / t as real
    ensures p >= t ==> Angle(w, p + 1, t) - Angle(w, p, t) == w.pi / (24 - t) as real
  {
    AngleOne(w, t, t);
    if p + 1 <= t {
      OneStep(w.pi, p, t);
    } else if p > t {
      OneStep(w.pi, p - t, 24 - t);
    } else {
      OneStep(w.pi, 0, 24 - t);
      FractionOrder(0, 0, 24 - t);
      ScaleOrder(w.pi, 0.0, 0.0);
    }
  }

  lemma OneStep(pi: real, a: nat, b: nat)
    requires b > 0
    ensures Scale(pi, Fraction(a + 1, b)) - Scale(pi, Fraction(a, b)) == pi / b as real
  {
    var y := b as real;
    assert Fraction(a + 1, b) == Fraction(a, b) + 1.0 / y;
    assert pi * (Fraction(a, b) + 1.0 / y) == pi * Fraction(a, b) + pi * (1.0 / y);
    assert pi * (1.0 / y) == pi / y;
  }

  function Peak(p: Profile): real { if p.peakMultiplier <= 0.0 then 3.0 else p.peakMultiplier }

  function Trough(p: Profile): real { if p.troughMultiplier <= 0.0 then 0.2 else p.troughMultiplier }

  /** The height of the curve between trough and peak for a cosine in [-1, 1]. */
  function Height(p: Profile, c: real): real {
    Trough(p) + Scale(Peak(p) - Trough(p), c + 1.0) / 2.0
  }

  function Base(w: Wave, p: Profile, hour: int): real
    requires p.Ready() && 0 <= hour < 24
  {
    TroughPhase(p);
    Height(p, w.cos(Angle(w, Phase(hour, p.peakHour), Phase(p.troughHour, p.peakHour))))
  }

  /** No divisor of the angle is zero. */
  lemma TroughPhase(p: Profile)
    requires p.Ready()
    ensures 0 < Phase(p.troughHour, p.peakHour) < 24
  {
    PhaseOfHours(p.troughHour, p.peakHour);
  }

  lemma HeightOrder(p: Profile, c: real, d: real)
    requires Peak(p) >= Trough(p) && -1.0 <= c <= d <= 1.0
    ensures Trough(p) <= Height(p, c) <= Height(p, d) <= Peak(p)
    ensures Height(p, -1.0) == Trough(p) && Height(p, 1.0) == Peak(p)
  {
    var k := Peak(p) - Trough(p);
    assert Scale(k, 0.0) == 0.0 && Scale(k, 2.0) == 2.0 * k;
    if k > 0.0 {
      ScaleOrder(k, 0.0, c + 1.0);
      ScaleOrder(k, c + 1.0, d + 1.0);
      ScaleOrder(k, d + 1.0, 2.0);
    } else {
      assert Scale(k, c + 1.0) == 0.0 && Scale(k, d + 1.0) == 0.0;
    }
  }

  /** The height follows the cosine in proportion. */
  lemma HeightInProportion(p: Profile, c: real, d: real)
    ensures Height(p, c) - Height(p, d) == (Peak(p) - Trough(p)) * (c - d) / 2.0
    ensures Height(p, 0.0) == (Peak(p) + Trough(p)) / 2.0
  {
    var k := Peak(p) - Trough(p);
    assert k * (c + 1.0) - k * (d + 1.0) == k * (c - d);
    assert Scale(k, 1.0) == k;
  }

  lemma CosineRange(w: Wave, x: real)
    requires w.Valid() && 0.0 <= x <= 2.0 * w.pi
    ensures -1.0 <= w.cos(x) <= 1.0
  {
    var y := if x <= w.pi then x else 2.0 * w.pi - x;
    assert w.cos(w.pi) <= w.cos(y) <= w.cos(0.0);
  }

  /** The multiplier of the peak hour is the peak's, that of the trough hour the trough's. */
  lemma BaseAtExtremes(w: Wave, p: Profile)
    requires w.Valid() && p.Ready()
    ensures Base(w, p, p.peakHour) == Peak(p)
    ensures Base(w, p, p.troughHour) == Trough(p)
  {
    TroughPhase(p);
    var t := Phase(p.troughHour, p.peakHour);
    PhaseOfHours(p.peakHour, p.peakHour);
    AngleOne(w, 0, t);
    AngleOne(w, t, t);
    assert Scale(Peak(p) - Trough(p), 2.0) == 2.0 * (Peak(p) - Trough(p));
    assert Scale(Peak(p) - Trough(p), 0.0) == 0.0;
  }

  /** A profile without hours and multipliers peaks at 14 with 3.0 and has its trough at 4 with 0.2. */
  lemma DocumentedDefaults(w: Wave, bursts: seq<CronBurst>)
    requires w.Valid() && forall i | 0 <= i < |bursts| :: bursts[i].Ok()
    ensures var p := Profile(0, 0, 0.0, 0.0, bursts).Defaulted();
            p.Ready() && Base(w, p, 14) == 3.0 && Base(w, p, 4) == 0.2
  {
    BaseAtExtremes(w, Profile(0, 0, 0.0, 0.0, bursts).Defaulted());
  }

  /** The curve falls from the peak to the trough and rises back: one minimum a day, and every value
      between the two multipliers. */
  lemma BaseUnimodal(w: Wave, p: Profile, h: int, h': int)
    requires w.Valid() && p.Ready() && Peak(p) >= Trough(p)
    requires 0 <= h < 24 && 0 <= h' < 24
    requires Phase(h, p.peakHour) <= Phase(h', p.peakHour)
    ensures Trough(p) <= Base(w, p, h) <= Peak(p)
    ensures Phase(h', p.peakHour) <= Phase(p.troughHour, p.peakHour) ==> Base(w, p, h) >= Base(w, p, h')
    ensures Phase(h, p.peakHour) >= Phase(p.troughHour, p.peakHour) ==> Base(w, p, h) <= Base(w, p, h')
  {
    TroughPhase(p);
    var t, a, b := Phase(p.troughHour, p.peakHour), Phase(h, p.peakHour), Phase(h', p.peakHour);
    var x, y := Angle(w, a, t), Angle(w, b, t);
    AngleShape(w, a, b, t);
    AngleOne(w, b, t);
    CosineRange(w, x);
    CosineRange(w, y);
    HeightOrder(p, w.cos(x), w.cos(x));
    if b <= t {
      HeightOrder(p, w.cos(y), w.cos(x));
    }
    if a >= t {
      if a == t {
        assert w.cos(x) == -1.0;
      } else {
        assert w.cos(x) == w.cos(2.0 * w.pi - x) <= w.cos(2.0 * w.pi - y) == w.cos(y);
      }
      HeightOrder(p, w.cos(x), w.cos(y));
    }
  }

  // ----- bursts

  /** Go's remainder takes the sign of the dividend. */
  function GoMod(a: int, b: int): int
    requires b > 0
  {
    if a >= 0 then a % b else -((-a) % b)
  }

  /** The correction of a negative remainder gives the Euclidean modulus, before 1970 too. */
  lemma WindowIsEuclidean(t: int, interval: int)
    requires interval > 0
    ensures var m := GoMod(t, interval);
            (if m < 0 then m + interval else m) == t % interval
  {
    if t < 0 {
      var q, r := (-t) / interval, (-t) % interval;
      assert -t == interval * q + r;
      if r == 0 {
        ModUnique(t, interval, -q, 0);
      } else {
        assert interval * (-q - 1) == -(interval * q) - interval;
        ModUnique(t, interval, -q - 1, interval - r);
      }
    }
  }

  lemma AtMostOnce(d: int, k: int)
    requires d > 0 && -d < d * k < d
    ensures k == 0
  {
  }

  lemma ModUnique(t: int, d: int, q: int, r: int)
    requires d > 0 && t == d * q + r && 0 <= r < d
    ensures t % d == r
  {
    var k := t / d - q;
    assert t == d * (t / d) + t % d;
    assert d * k == r - t % d by {
      assert d * (t / d) == d * q + d * k;
    }
    AtMostOnce(d, k);
  }

  predicate Bursting(cb: CronBurst, t: int)
    requires cb.interval > 0
  {
    t % cb.interval < cb.duration
  }

  /** A burst is active in the first `duration` nanoseconds of every period, and in no others. */
  lemma BurstWindow(cb: CronBurst, k: int, ns: int)
    requires cb.Ok() && 0 <= ns < cb.interval
    ensures Bursting(cb, cb.interval * k + ns) <==> ns < cb.duration
  {
    ModUnique(cb.interval * k + ns, cb.interval, k, ns);
  }

  /** The greatest of `base` and the multipliers of the first `n` bursts that are active. */
  function WithBursts(base: real, bursts: seq<CronBurst>, t: int, n: nat): real
    requires n <= |bursts| && forall i | 0 <= i < |bursts| :: bursts[i].Ok()
  {
    if n == 0 then base
    else
      var m := WithBursts(base, bursts, t, n - 1);
      if Bursting(bursts[n - 1], t) && bursts[n - 1].multiplier > m then bursts[n - 1].multiplier else m
  }

  function Multiplier(w: Wave, hour: int, t: int, cfg: Option<Profile>): real
    requires 0 <= hour < 24 && (cfg.Some? ==> cfg.value.Ready())
  {
    if cfg.None? then 1.0 else WithBursts(Base(w, cfg.value, hour), cfg.value.bursts, t, |cfg.value.bursts|)
  }

  /** The same multiplier at every time of every day. */
  ghost predicate SameCurve(p: Profile, q: Profile)
    requires p.Ready() && q.Ready()
  {
    forall w: Wave, hour: int, t: int | 0 <= hour < 24 ::
      Multiplier(w, hour, t, Some(p)) == Multiplier(w, hour, t, Some(q))
  }

  /** The curve has the same defaults for the multipliers, so filling them in changes no result; a profile
      that is ready has its own hours. */
  lemma DefaultsKeepTheCurve(p: Profile)
    requires p.Ready()
    ensures p.Defaulted().Ready() && SameCurve(p, p.Defaulted())
  {
    var q := p.Defaulted();
    forall w: Wave, hour: int | 0 <= hour < 24
      ensures Base(w, p, hour) == Base(w, q, hour)
    {
      assert Peak(p) == Peak(q) && Trough(p) == Trough(q);
    }
  }

  /** The result is the maximum: at least the base and every active burst, and one of them. */
  lemma {:induction false} BurstsOnlyRaise(base: real, bursts: seq<CronBurst>, t: int, n: nat)
    requires n <= |bursts| && forall i | 0 <= i < |bursts| :: bursts[i].Ok()
    ensures var m := WithBursts(base, bursts, t, n);
            && m >= base
            && (forall i | 0 <= i < n && Bursting(bursts[i], t) :: m >= bursts[i].multiplier)
            && (m == base || exists i :: 0 <= i < n && Bursting(bursts[i], t) && m == bursts[i].multiplier)
  {
    if n > 0 {
      BurstsOnlyRaise(base, bursts, t, n - 1);
    }
  }

  method DiurnalMultiplier(w: Wave, hour: int, unixNano: int, cfg: Option<Profile>) returns (m: real)
    requires 0 <= hour < 24
    requires cfg.Some? ==> cfg.value.Ready()
    ensures m == Multiplier(w, hour, unixNano, cfg)
  {
    if cfg.None? {
      return 1.0;
    }
    var p := cfg.value;
    TroughPhase(p);
    var peakMult, troughMult := Peak(p), Trough(p);
    var phase, troughPhase := Phase(hour, p.peakHour), Phase(p.troughHour, p.peakHour);
    var angle;
    if phase <= troughPhase {
      angle := Scale(w.pi, Fraction(phase, troughPhase));
    } else {
      angle := w.pi + Scale(w.pi, Fraction(phase - troughPhase, 24 - troughPhase));
    }
    m := troughMult + Scale(peakMult - troughMult, w.cos(angle) + 1.0) / 2.0;
    assert m == Base(w, p, hour);
    for i := 0 to |p.bursts|
      invariant m == WithBursts(Base(w, p, hour), p.bursts, unixNano, i)
    {
      var cb := p.bursts[i];
      WindowIsEuclidean(unixNano, cb.interval);
      var mod := GoMod(unixNano, cb.interval);
      if mod < 0 {
        mod := mod + cb.interval;
      }
      if mod < cb.duration && cb.multiplier > m {
        m := cb.multiplier;
      }
    }
  }
}
