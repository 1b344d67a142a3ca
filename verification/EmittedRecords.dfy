/** What an emitted record is made of, said without the functions that the loops are specified by. */
module EmittedRecords {
  import opened Rand
  import opened Records
  import opened Values
  import opened Emission
  import Diurnal
  import Generator

  // ----- time

  /** The jitter is the whole part of the absolute deviation that one normal draw gives, cut off at the last
      nanosecond of the interval; without a deviation nothing is drawn. */
  lemma JitterIsWholePart(t: int, stdDev: int, interval: int, rng: Rng)
    requires interval > 0
    ensures stdDev == 0 ==> AddJitter(t, stdDev, interval, rng) == (t, rng)
    ensures var z := rng.source.norms(rng.seed, rng.calls) * stdDev as real;
            var x := if z < 0.0 then -z else z;
            var (t', next) := AddJitter(t, stdDev, interval, rng);
            stdDev != 0 ==>
              && next == rng.(calls := rng.calls + [CallNorm])
              && (x < interval as real ==> (t' - t) as real <= x < (t' - t) as real + 1.0)
              && (x >= interval as real ==> t' == t + interval - 1)
  {
  }

  /** It is hour `h` in the hour that begins `h` hours after the midnight of any day, in local time. */
  lemma HourOfTheDay(day: int, h: int, ns: int, zone: int)
    requires 0 <= h < 24 && 0 <= ns < HOUR
    ensures HourOf((day * 24 + h) * HOUR + ns - zone, zone) == h
  {
    var hours := day * 24 + h;
    DivideBack(hours, HOUR, ns);
    DivideBack(day, 24, h);
  }

  lemma DivideBack(q: int, d: int, r: int)
    requires 0 <= r < d
    ensures (q * d + r) / d == q && (q * d + r) % d == r
  {
    Diurnal.ModUnique(q * d + r, d, q, r);
    var t := q * d + r;
    assert t == d * (t / d) + t % d;
    assert d * (t / d - q) == 0;
    Diurnal.AtMostOnce(d, t / d - q);
  }

  // ----- severities

  /** Every severity has a text that names it, or INFO if it is none of the six. */
  lemma SeverityTextNames(sev: Severity)
    ensures NamedSeverity(SeverityText(sev)) == Some(if sev.Other? then Info else sev)
  {
  }

  /** The text of each of the six severities names it, in upper or lower case. */
  lemma SeverityNames(s: string, sev: Severity)
    requires !sev.Other? && Upper(s) == SeverityText(sev)
    ensures ParseSeverity(s) == sev
  {
  }

  lemma OtherNames(s: string)
    requires forall sev: Severity | !sev.Other? :: Upper(s) != SeverityText(sev)
    ensures ParseSeverity(s) == Error
  {
    assert Upper(s) != SeverityText(Trace) && Upper(s) != SeverityText(Debug) && Upper(s) != SeverityText(Info);
    assert Upper(s) != SeverityText(Warn) && Upper(s) != SeverityText(Error) && Upper(s) != SeverityText(Fatal);
  }

  // ----- needles

  /** The needle's attributes go over the one with its name, and both over those of the record. */
  ghost predicate Overlaid(attrs: map<string, string>, n: Needle, out: map<string, string>) {
    forall key ::
      && (key in out <==> key in n.attributes || key == "needle.name" || key in attrs)
      && (key in out ==>
            out[key] == if key in n.attributes then n.attributes[key]
                        else if key == "needle.name" then n.name
                        else attrs[key])
  }

  /** The record `out` is `rec` with the message, severity, attributes and name of the needle. */
  ghost predicate ReplacedBy(rec: LogRecord, n: Needle, out: LogRecord) {
    && out.body == n.message
    && out.severity == ParseSeverity(n.severity)
    && Overlaid(rec.attrs, n, out.attrs)
    && out.needle == Some(n.name)
    && out.time == rec.time && out.resource == rec.resource && out.trace == rec.trace
  }

  /** Exactly one draw per needle, and the record becomes that of the first needle whose roll passes, or
      stays as it was if none does. */
  lemma FirstPassingNeedleReplaces(needles: seq<Needle>, n: nat, rec: LogRecord, rng: Rng)
    requires rec.needle.None? && n <= |needles|
    ensures var (out, next) := Needles(needles, n, rec, rng);
            && next == AfterFloats(rng, n)
            && match FirstPassing(needles, rng, n)
               case Some(i) => ReplacedBy(rec, needles[i], out)
               case None => out == rec
  {
    NeedlesReplace(needles, n, rec, rng);
  }

  /** A needle of rate one always passes, and one of rate zero never does. */
  lemma CertainNeedles(needles: seq<Needle>, rng: Rng, i: nat)
    requires i < |needles|
    ensures needles[i].rate >= 1.0 ==> Passes(needles, rng, i)
    ensures needles[i].rate <= 0.0 ==> !Passes(needles, rng, i)
  {
    var roll := AfterFloats(rng, i).Float64().0;
    assert 0.0 <= roll < 1.0;
  }

  // ----- whole records

  /** The attributes that are not nil, as they are shown. */
  ghost predicate Shows(show: Value -> string, attrs: map<string, Value>, out: map<string, string>) {
    forall key ::
      && (key in out <==> key in attrs && attrs[key] != Nil)
      && (key in out ==> out[key] == show(attrs[key]))
  }

  /** A trace of sixteen random bytes and a span of eight are drawn last, if the scenario emits them. */
  ghost predicate Traced(emitTrace: bool, rng: Rng, trace: Option<(nat, nat)>, next: Rng) {
    if emitTrace then
      && trace == Some((rng.source.ints(rng.seed, rng.calls), rng.source.ints(rng.seed, rng.calls + [CallBytes(16)])))
      && next == rng.(calls := rng.calls + [CallBytes(16)] + [CallBytes(8)])
    else trace == None && next == rng
  }

  /** A record is a generated one, at a jittered time and for the resource of the instance, replaced by the first
      needle whose roll passes, and traced: each part draws where the one before left the generator. */
  lemma RecordInParts(env: Env, s: Setup, t: int, idx: nat, rng: Rng) returns (plain: LogRecord)
    requires s.Ok() && idx < |s.resources| && env.interval > 0
    ensures var (ts, r) := AddJitter(t, env.jitterStdDev, env.interval, rng);
            var g := Generator.Prepared(env.lib, s.profile, r, ts);
            var (rec, next) := OneRecord(env, s, t, idx, rng);
            && plain.time == ts && plain.severity == g.severity && plain.body == g.body
            && plain.resource == s.resources[idx] && plain.needle == None && plain.trace == None
            && Shows(env.show, g.attrs, plain.attrs)
            && (match FirstPassing(s.needles, g.rng, |s.needles|)
                case Some(i) => ReplacedBy(plain, s.needles[i], rec.(trace := None))
                case None => rec.(trace := None) == plain)
            && Traced(s.emitTrace, AfterFloats(g.rng, |s.needles|), rec.trace, next)
  {
    var (ts, r) := AddJitter(t, env.jitterStdDev, env.interval, rng);
    var g := Generator.Prepared(env.lib, s.profile, r, ts);
    plain := LogRecord(ts, g.severity, g.body, Shown(env.show, g.attrs, g.attrs.Keys), s.resources[idx], None, None);
    FirstPassingNeedleReplaces(s.needles, |s.needles|, plain, g.rng);
  }
}
