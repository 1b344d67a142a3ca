/** Emitting the records of an instance: jitter, generation, needles, statistics and trace context. */
module Emission {
  import opened Rand
  import opened Records
  import opened Values
  import opened Volume
  import opened Rounds
  import opened Timestamps
  import opened RoundTotal
  import opened Bags
  import Skew
  import Diurnal
  import Generator
  import Stats
  import Partition

  datatype Needle = Needle(name: string, message: string, rate: real, severity: string, attributes: map<string, string>)

  /** What the receiver and its libraries provide to every scenario.  `show` prints an attribute value for
      the statistics; `zone` is the offset from UTC in which hours are read. */
  datatype Env = Env(
    lib: Library, show: Value -> string, wave: Diurnal.Wave, zone: int, jitterStdDev: int, interval: int)

  /** A scenario as the receiver prepares it. */
  datatype Setup = Setup(
    logsPerInterval: int, concurrency: int, scale: int,
    volume: Option<VolumeProfile>, diurnal: Option<Diurnal.Profile>, multipliers: Option<seq<real>>,
    needles: seq<Needle>, emitTrace: bool, profile: Generator.Profile, resources: seq<map<string, string>>)
  {
    predicate Ok() {
      && logsPerInterval >= 0 && concurrency >= 0 && scale >= 0
      && ProfileOk(volume)
      && (diurnal.Some? ==> diurnal.value.Ready())
      && (multipliers.Some? ==> |multipliers.value| == scale)
      && |resources| == scale
      && profile.Ok()
    }
  }

  // ----- time

  function Abs(x: real): real {
    if x < 0.0 then -x else x
  }

  function Spread(z: real, stdDev: int): real {
    Abs(z * stdDev as real)
  }

  /** The jitter is cut off so that a record never reaches the next interval. */
  function AddJitter(t: int, stdDev: int, interval: int, rng: Rng): (r: (int, Rng))
    requires interval > 0
    ensures t <= r.0 < t + interval
  {
    if stdDev == 0 then (t, rng)
    else
      var (z, next) := rng.Norm();
      var jitter := Spread(z, stdDev).Floor;
      (t + if jitter >= interval then interval - 1 else jitter, next)
  }

  const HOUR: int := 3_600_000_000_000

  function HourOf(t: int, zone: int): (h: int)
    ensures 0 <= h < 24
  {
    ((t + zone) / HOUR) % 24
  }

  // ----- needles

  function UpperChar(c: char): char {
    if 'a' <= c <= 'z' then (c as int - 32) as char else c
  }

  function Upper(s: string): string {
    seq(|s|, i requires 0 <= i < |s| => UpperChar(s[i]))
  }

  function NamedSeverity(s: string): Option<Severity> {
    if s == "TRACE" then Some(Trace)
    else if s == "DEBUG" then Some(Debug)
    else if s == "INFO" then Some(Info)
    else if s == "WARN" then Some(Warn)
    else if s == "ERROR" then Some(Error)
    else if s == "FATAL" then Some(Fatal)
    else None
  }

  /** Empty or unknown names stand for errors. */
  function ParseSeverity(s: string): Severity {
    match NamedSeverity(Upper(s))
    case Some(sev) => sev
    case None => Error
  }

  function Replace(rec: LogRecord, n: Needle): LogRecord {
    rec.(body := n.message, severity := ParseSeverity(n.severity),
         attrs := rec.attrs["needle.name" := n.name] + n.attributes, needle := Some(n.name))
  }

  /** One roll for every needle of the first `n`; the first that passes replaces the record. */
  function Needles(needles: seq<Needle>, n: nat, rec: LogRecord, rng: Rng): (LogRecord, Rng)
    requires n <= |needles|
  {
    if n == 0 then (rec, rng)
    else
      var (rec1, r1) := Needles(needles, n - 1, rec, rng);
      var (roll, r2) := r1.Float64();
      (if rec1.needle.None? && roll < needles[n - 1].rate then Replace(rec1, needles[n - 1]) else rec1, r2)
  }

  function AfterFloats(rng: Rng, n: nat): Rng {
    rng.(calls := rng.calls + seq(n, _ => CallFloat64))
  }

  predicate Passes(needles: seq<Needle>, rng: Rng, i: nat)
    requires i < |needles|
  {
    AfterFloats(rng, i).Float64().0 < needles[i].rate
  }

  /** The first of the first `n` needles whose own roll passes. */
  function FirstPassing(needles: seq<Needle>, rng: Rng, n: nat): (i: Option<nat>)
    requires n <= |needles|
    ensures i.Some? ==>
              i.value < n && Passes(needles, rng, i.value) && forall k | 0 <= k < i.value :: !Passes(needles, rng, k)
    ensures i.None? ==> forall k | 0 <= k < n :: !Passes(needles, rng, k)
  {
    if n == 0 then None
    else
      match FirstPassing(needles, rng, n - 1)
      case Some(i) => Some(i)
      case None => if Passes(needles, rng, n - 1) then Some(n - 1) else None
  }

  lemma NextFloat(rng: Rng, n: nat)
    ensures AfterFloats(rng, n).Float64().1 == AfterFloats(rng, n + 1)
  {
    assert rng.calls + seq(n, _ => CallFloat64) + [CallFloat64] == rng.calls + seq(n + 1, _ => CallFloat64);
  }

  /** The first needle whose roll passes replaces the record, at exactly one draw per needle. */
  lemma {:induction false} NeedlesReplace(needles: seq<Needle>, n: nat, rec: LogRecord, rng: Rng)
    requires rec.needle.None? && n <= |needles|
    ensures Needles(needles, n, rec, rng) == (
              match FirstPassing(needles, rng, n)
              case Some(i) => Replace(rec, needles[i])
              case None => rec,
              AfterFloats(rng, n))
  {
    if n == 0 {
      assert AfterFloats(rng, 0).calls == rng.calls;
    } else {
      NeedlesReplace(needles, n - 1, rec, rng);
      NextFloat(rng, n - 1);
    }
  }

  // ----- one record

  function Shown(show: Value -> string, attrs: map<string, Value>, keys: set<string>): map<string, string>
    requires keys <= attrs.Keys
  {
    map k | k in keys && attrs[k] != Nil :: show(attrs[k])
  }

  function WithTrace(emitTrace: bool, rec: LogRecord, rng: Rng): (LogRecord, Rng) {
    if !emitTrace then (rec, rng)
    else
      var (traceId, r1) := rng.Bytes(16);
      var (spanId, r2) := r1.Bytes(8);
      (rec.(trace := Some((traceId, spanId))), r2)
  }

  function OneRecord(env: Env, s: Setup, t: int, idx: nat, rng: Rng): (r: (LogRecord, Rng))
    requires s.Ok() && idx < |s.resources| && env.interval > 0
  {
    var (ts, r1) := AddJitter(t, env.jitterStdDev, env.interval, rng);
    var g := Generator.Prepared(env.lib, s.profile, r1, ts);
    var rec := LogRecord(ts, g.severity, g.body, Shown(env.show, g.attrs, g.attrs.Keys), s.resources[idx], None, None);
    var (rec1, r2) := Needles(s.needles, |s.needles|, rec, g.rng);
    WithTrace(s.emitTrace, rec1, r2)
  }

  lemma {:induction false} NeedlesKeepOrigin(needles: seq<Needle>, n: nat, rec: LogRecord, rng: Rng)
    requires n <= |needles|
    ensures var out := Needles(needles, n, rec, rng).0;
            out.time == rec.time && out.resource == rec.resource
  {
    if n > 0 {
      NeedlesKeepOrigin(needles, n - 1, rec, rng);
    }
  }

  /** A record is stamped within its interval and belongs to the resource of its instance. */
  lemma OneRecordStamped(env: Env, s: Setup, t: int, idx: nat, rng: Rng)
    requires s.Ok() && idx < |s.resources| && env.interval > 0
    ensures Stamped(OneRecord(env, s, t, idx, rng).0, t, env.interval)
    ensures OneRecord(env, s, t, idx, rng).0.resource == s.resources[idx]
  {
    var (ts, r1) := AddJitter(t, env.jitterStdDev, env.interval, rng);
    var g := Generator.Prepared(env.lib, s.profile, r1, ts);
    var rec := LogRecord(ts, g.severity, g.body, Shown(env.show, g.attrs, g.attrs.Keys), s.resources[idx], None, None);
    NeedlesKeepOrigin(s.needles, |s.needles|, rec, g.rng);
  }

  // ----- the scenario as a round sees it

  function Volume3(a: int, b: real, c: real): real {
    a as real * b * c
  }

  function EffectiveLogs(logsPerInterval: int, diurnal: real, volume: real): int {
    var n := Skew.Truncate(Volume3(logsPerInterval, diurnal, volume));
    if n < 1 && logsPerInterval > 0 then 1 else n
  }

  lemma AtLeastOne(logsPerInterval: int, diurnal: real, volume: real)
    ensures logsPerInterval > 0 ==> EffectiveLogs(logsPerInterval, diurnal, volume) >= 1
  {
  }

  function DiurnalOf(env: Env, s: Setup, t: int): real
    requires s.Ok()
  {
    Diurnal.Multiplier(env.wave, HourOf(t, env.zone), t, s.diurnal)
  }

  function PlanOf(env: Env, s: Setup): (int, Phase, Rng) -> (Phase, int, Rng)
    requires s.Ok()
  {
    (t: int, ph: Phase, rng: Rng) =>
      var (ph', m, r) := Advance(ph, rng, s.volume);
      (ph', EffectiveLogs(s.logsPerInterval, DiurnalOf(env, s, t), m), r)
  }

  function PerInstanceOf(s: Setup): (int, nat) -> int {
    (n: int, idx: nat) =>
      if s.multipliers.None? || idx < |s.multipliers.value| then Skew.InstanceLogs(n, s.multipliers, idx) else n
  }

  function EmitOf(env: Env, s: Setup): Emit
    requires s.Ok() && env.interval > 0
  {
    (t: int, idx: nat, rng: Rng) =>
      if idx < |s.resources| then OneRecord(env, s, t, idx, rng) else (BLANK.(time := t), rng)
  }

  function ScenarioOf(env: Env, s: Setup): Scenario
    requires s.Ok() && env.interval > 0
  {
    Scenario(s.logsPerInterval, s.concurrency, s.scale, PlanOf(env, s), PerInstanceOf(s), EmitOf(env, s))
  }

  /** The receiver's scenarios meet what the theorems about rounds ask of a scenario: an active one emits
      from every instance, and every record is stamped within its interval. */
  lemma ScenarioMeetsHypotheses(env: Env, s: Setup)
    requires s.Ok() && env.interval > 0
    ensures Lively(ScenarioOf(env, s)) && Punctual(ScenarioOf(env, s), env.interval)
  {
    var scn := ScenarioOf(env, s);
    forall t: int, idx: nat, r: Rng
      ensures Stamped(scn.emit(t, idx, r).0, t, env.interval)
    {
      if idx < |s.resources| {
        OneRecordStamped(env, s, t, idx, r);
      }
    }
    if scn.Active() {
      forall t: int, ph: Phase, r: Rng
        ensures scn.plan(t, ph, r).1 >= 1
      {
        AtLeastOne(s.logsPerInterval, DiurnalOf(env, s, t), Advance(ph, r, s.volume).1);
      }
    }
  }

  // ----- the program's loops

  /** The records of one batch. */
  class Batch {
    var records: seq<LogRecord>

    constructor ()
      ensures records == []
    {
      records := [];
    }
  }

  /** The needle counters, shared by all threads: the multiplicity of a name is its count. */
  class NeedleCounters {
    var counts: multiset<string>

    constructor ()
      ensures counts == multiset{}
    {
      counts := multiset{};
    }
  }

  /** What a thread reuses from record to record. */
  class Buffers {
    const attrs: AttrMap
    const args: array<Value>
    var body: string

    constructor (maxArgs: nat)
      ensures fresh(attrs) && fresh(args)
    {
      attrs := new AttrMap();
      args := new Value[maxArgs](_ => Nil);
      body := "";
    }
  }

  /** The attributes of a Go map, in arbitrary order, without the nil ones. */
  method ShowAll(show: Value -> string, attrs: map<string, Value>) returns (shown: map<string, string>)
    ensures shown == Shown(show, attrs, attrs.Keys)
  {
    shown := map[];
    var todo := attrs.Keys;
    while todo != {}
      invariant todo <= attrs.Keys
      invariant shown == Shown(show, attrs, attrs.Keys - todo)
    {
      var k :| k in todo;
      if attrs[k] != Nil {
        shown := shown[k := show(attrs[k])];
      }
      todo := todo - {k};
    }
  }

  method ApplyNeedles(needles: seq<Needle>, rec: LogRecord, rng: Rng, counters: NeedleCounters)
    returns (out: LogRecord, next: Rng)
    requires rec.needle.None?
    modifies counters
    ensures (out, next) == Needles(needles, |needles|, rec, rng)
    ensures counters.counts == old(counters.counts) + NeedleBag(out)
  {
    out, next := rec, rng;
    var replaced := false;
    for i := 0 to |needles|
      invariant (out, next) == Needles(needles, i, rec, rng)
      invariant replaced == out.needle.Some?
      invariant counters.counts == old(counters.counts) + NeedleBag(out)
    {
      var (roll, r) := next.Float64();
      next := r;
      if !replaced && roll < needles[i].rate {
        out := Replace(out, needles[i]);
        counters.counts := counters.counts + multiset{needles[i].name};
        replaced := true;
      }
    }
  }

  method EmitRecord(
      env: Env, s: Setup, pp: Generator.PreparedProfile, t: int, idx: nat, rng: Rng, buffers: Buffers,
      counters: NeedleCounters)
    returns (rec: LogRecord, next: Rng)
    requires s.Ok() && idx < |s.resources| && env.interval > 0
    requires pp.Valid() && pp.profile == s.profile
    modifies buffers, buffers.attrs, buffers.args, counters
    ensures (rec, next) == OneRecord(env, s, t, idx, rng)
    ensures counters.counts == old(counters.counts) + NeedleBag(rec)
  {
    var (ts, r1) := AddJitter(t, env.jitterStdDev, env.interval, rng);
    var body, sev, bodyBuf;
    body, sev, bodyBuf, next :=
      Generator.GenerateFromPreparedInto(env.lib, r1, pp, ts, buffers.attrs, buffers.args, buffers.body);
    buffers.body := bodyBuf;
    var shown := ShowAll(env.show, buffers.attrs.fields);
    rec := LogRecord(ts, sev, body, shown, s.resources[idx], None, None);
    rec, next := ApplyNeedles(s.needles, rec, next, counters);
    rec, next := AddTrace(s.emitTrace, rec, next);
  }

  method AddTrace(emitTrace: bool, rec: LogRecord, rng: Rng) returns (out: LogRecord, next: Rng)
    ensures (out, next) == WithTrace(emitTrace, rec, rng)
    ensures NeedleBag(out) == NeedleBag(rec)
  {
    if !emitTrace {
      return rec, rng;
    }
    var (traceId, r1) := rng.Bytes(16);
    var (spanId, r2) := r1.Bytes(8);
    return rec.(trace := Some((traceId, spanId))), r2;
  }

  lemma {:induction false} RunJobsAppend(emit: Emit, t: int, a: seq<nat>, b: seq<nat>, rng: Rng)
    ensures var first := RunJobs(emit, t, a, rng);
            var second := RunJobs(emit, t, b, first.1);
            RunJobs(emit, t, a + b, rng) == (first.0 + second.0, second.1)
    decreases |a|
  {
    if a == [] {
      assert a + b == b;
      var second := RunJobs(emit, t, b, rng);
      assert [] + second.0 == second.0;
    } else {
      assert (a + b)[1..] == a[1..] + b;
      var (rec, r1) := emit(t, a[0], rng);
      RunJobsAppend(emit, t, a[1..], b, r1);
      var first := RunJobs(emit, t, a[1..], r1);
      var second := RunJobs(emit, t, b, first.1);
      assert [rec] + (first.0 + second.0) == ([rec] + first.0) + second.0;
    }
  }

  /** What a thread adds to: its batch, its shard's stream and the needle counters. */
  datatype Traces = Traces(batch: seq<LogRecord>, stream: seq<LogRecord>, needles: multiset<string>)

  ghost function TracesOf(batch: Batch, shard: Stats.LogStats, counters: NeedleCounters): Traces
    reads batch, shard, counters
  {
    Traces(batch.records, shard.stream, counters.counts)
  }

  function Extended(tr: Traces, recs: seq<LogRecord>): Traces {
    Traces(tr.batch + recs, tr.stream + recs, tr.needles + Sum(recs, NeedleBag))
  }

  /** The jobs have been run: their records are in the batch, in the shard and, where needles replaced
      them, in the counters, and the generator is where they leave it. */
  ghost predicate Ran(emit: Emit, t: int, jobs: seq<nat>, rng: Rng, before: Traces, after: Traces, next: Rng) {
    var (recs, r) := RunJobs(emit, t, jobs, rng);
    after == Extended(before, recs) && next == r
  }

  lemma RanNothing(emit: Emit, t: int, rng: Rng, tr: Traces)
    ensures Ran(emit, t, [], rng, tr, tr, rng)
  {
    assert tr.batch + [] == tr.batch && tr.stream + [] == tr.stream;
  }

  lemma ExtendedTwice(tr: Traces, a: seq<LogRecord>, b: seq<LogRecord>)
    ensures Extended(Extended(tr, a), b) == Extended(tr, a + b)
  {
    SumAppend(a, b, NeedleBag);
    Associative(tr.batch, a, b);
    Associative(tr.stream, a, b);
    assert (tr.needles + Sum(a, NeedleBag)) + Sum(b, NeedleBag) == tr.needles + (Sum(a, NeedleBag) + Sum(b, NeedleBag));
  }

  lemma RanThen(
      emit: Emit, t: int, a: seq<nat>, b: seq<nat>, rng: Rng, tr0: Traces, tr1: Traces, tr2: Traces, mid: Rng,
      next: Rng)
    requires Ran(emit, t, a, rng, tr0, tr1, mid) && Ran(emit, t, b, mid, tr1, tr2, next)
    ensures Ran(emit, t, a + b, rng, tr0, tr2, next)
  {
    RunJobsAppend(emit, t, a, b, rng);
    ExtendedTwice(tr0, RunJobs(emit, t, a, rng).0, RunJobs(emit, t, b, mid).0);
  }

  lemma RanOneMore(
      emit: Emit, t: int, idx: nat, i: nat, rng: Rng, tr0: Traces, tr1: Traces, tr2: Traces, mid: Rng, next: Rng)
    requires Ran(emit, t, Times(idx, i), rng, tr0, tr1, mid) && Ran(emit, t, [idx], mid, tr1, tr2, next)
    ensures Ran(emit, t, Times(idx, i + 1), rng, tr0, tr2, next)
  {
    RanThen(emit, t, Times(idx, i), [idx], rng, tr0, tr1, tr2, mid, next);
    assert Times(idx, i) + [idx] == Times(idx, i + 1);
  }

  lemma RanOne(emit: Emit, t: int, idx: nat, rng: Rng, tr: Traces, rec: LogRecord, next: Rng)
    requires (rec, next) == emit(t, idx, rng)
    ensures Ran(emit, t, [idx], rng, tr, Traces(tr.batch + [rec], tr.stream + [rec], tr.needles + NeedleBag(rec)), next)
  {
    assert [idx][1..] == [] && RunJobs(emit, t, [], next) == ([], next);
    assert [rec] + [] == [rec];
    SumOne(rec, NeedleBag);
  }

  /** The scenario has the setup's shape and emits and skews on its instances as the setup does.  The loops
      below run the jobs of any such scenario. */
  ghost predicate Simulates(env: Env, s: Setup, scn: Scenario)
    requires s.Ok() && env.interval > 0
  {
    && scn.scale == s.scale && scn.concurrency == s.concurrency
    && (forall t: int, idx: nat, r: Rng {:trigger OneRecord(env, s, t, idx, r)} | idx < s.scale ::
          scn.emit(t, idx, r) == OneRecord(env, s, t, idx, r))
    && (forall n: int, idx: nat {:trigger Skew.InstanceLogs(n, s.multipliers, idx)} | idx < s.scale ::
          scn.perInstance(n, idx) == Skew.InstanceLogs(n, s.multipliers, idx))
  }

  lemma ScenarioSimulates(env: Env, s: Setup)
    requires s.Ok() && env.interval > 0
    ensures Simulates(env, s, ScenarioOf(env, s))
  {
  }

  /** One record, into the batch and the shard. */
  method AppendRecord(
      env: Env, s: Setup, ghost scn: Scenario, pp: Generator.PreparedProfile, t: int, idx: nat, rng: Rng,
      shard: Stats.LogStats, batch: Batch, counters: NeedleCounters, buffers: Buffers)
    returns (next: Rng)
    requires s.Ok() && idx < |s.resources| && env.interval > 0 && Simulates(env, s, scn)
    requires pp.Valid() && pp.profile == s.profile && shard.Valid()
    modifies shard, batch, counters, buffers, buffers.attrs, buffers.args
    ensures shard.Valid()
    ensures Ran(scn.emit, t, [idx], rng, old(TracesOf(batch, shard, counters)),
                TracesOf(batch, shard, counters), next)
  {
    var rec;
    rec, next := EmitRecord(env, s, pp, t, idx, rng, buffers, counters);
    batch.records := batch.records + [rec];
    shard.Record(rec);
    RanOne(scn.emit, t, idx, rng, old(TracesOf(batch, shard, counters)), rec, next);
  }

  /** `n` records of one instance. */
  method AppendInstanceLogs(
      env: Env, s: Setup, ghost scn: Scenario, pp: Generator.PreparedProfile, t: int, idx: nat, n: int, rng: Rng,
      shard: Stats.LogStats, batch: Batch, counters: NeedleCounters, buffers: Buffers)
    returns (next: Rng)
    requires s.Ok() && idx < |s.resources| && env.interval > 0 && Simulates(env, s, scn)
    requires pp.Valid() && pp.profile == s.profile && shard.Valid()
    modifies shard, batch, counters, buffers, buffers.attrs, buffers.args
    ensures shard.Valid()
    ensures Ran(scn.emit, t, Times(idx, n), rng, old(TracesOf(batch, shard, counters)),
                TracesOf(batch, shard, counters), next)
  {
    next := rng;
    ghost var tr0 := TracesOf(batch, shard, counters);
    RanNothing(scn.emit, t, rng, tr0);
    var i := 0;
    while i < n
      invariant 0 <= i && (i == 0 || i <= n) && shard.Valid()
      invariant Ran(scn.emit, t, Times(idx, i), rng, tr0, TracesOf(batch, shard, counters), next)
    {
      ghost var tr1, mid := TracesOf(batch, shard, counters), next;
      next := AppendRecord(env, s, scn, pp, t, idx, next, shard, batch, counters, buffers);
      RanOneMore(scn.emit, t, idx, i, rng, tr0, tr1, TracesOf(batch, shard, counters), mid, next);
      i := i + 1;
    }
  }

  /** One instance, with its skewed number of records. */
  method RunInstance(
      env: Env, s: Setup, ghost scn: Scenario, pp: Generator.PreparedProfile, t: int, idx: nat, logs: int, rng: Rng,
      shard: Stats.LogStats, batch: Batch, counters: NeedleCounters, buffers: Buffers)
    returns (next: Rng)
    requires s.Ok() && idx < |s.resources| && env.interval > 0 && Simulates(env, s, scn)
    requires pp.Valid() && pp.profile == s.profile && shard.Valid()
    modifies shard, batch, counters, buffers, buffers.attrs, buffers.args
    ensures shard.Valid()
    ensures Ran(scn.emit, t, Times(idx, scn.perInstance(logs, idx)), rng,
                old(TracesOf(batch, shard, counters)), TracesOf(batch, shard, counters), next)
  {
    var n := Skew.InstanceLogs(logs, s.multipliers, idx);
    if n <= 0 {
      RanNothing(scn.emit, t, rng, TracesOf(batch, shard, counters));
      return rng;
    }
    next := AppendInstanceLogs(env, s, scn, pp, t, idx, n, rng, shard, batch, counters, buffers);
  }

  /** The jobs that step `j` of a worker adds. */
  function Share(scn: Scenario, logs: int, wi: nat, j: nat): seq<nat>
    requires scn.concurrency > 0
  {
    var idx := Partition.Instance(j, wi, scn.scale, scn.concurrency);
    if idx >= scn.scale then [] else Times(idx, scn.perInstance(logs, idx))
  }

  /** One step more of a worker. */
  lemma RanShare(
      scn: Scenario, t: int, logs: int, wi: nat, j: nat, rng: Rng, tr0: Traces, tr1: Traces, tr2: Traces,
      mid: Rng, next: Rng)
    requires scn.concurrency > 0
    requires Ran(scn.emit, t, WorkerJobs(scn, logs, wi, j), rng, tr0, tr1, mid)
    requires Ran(scn.emit, t, Share(scn, logs, wi, j), mid, tr1, tr2, next)
    ensures Ran(scn.emit, t, WorkerJobs(scn, logs, wi, j + 1), rng, tr0, tr2, next)
  {
    RanThen(scn.emit, t, WorkerJobs(scn, logs, wi, j), Share(scn, logs, wi, j), rng, tr0, tr1, tr2, mid, next);
  }

  /** One instance more of a sequential scenario. */
  lemma RanInstance(
      scn: Scenario, t: int, logs: int, i: nat, rng: Rng, tr0: Traces, tr1: Traces, tr2: Traces, mid: Rng, next: Rng)
    requires i < scn.scale
    requires Ran(scn.emit, t, SequentialJobs(scn, logs, i), rng, tr0, tr1, mid)
    requires Ran(scn.emit, t, Times(i, scn.perInstance(logs, i)), mid, tr1, tr2, next)
    ensures Ran(scn.emit, t, SequentialJobs(scn, logs, i + 1), rng, tr0, tr2, next)
  {
    RanThen(scn.emit, t, SequentialJobs(scn, logs, i), Times(i, scn.perInstance(logs, i)), rng, tr0, tr1, tr2, mid,
            next);
  }

  /** Step `j` of a worker that began with generator `rng0` and traces `tr0`. */
  method RunShare(
      env: Env, s: Setup, ghost scn: Scenario, pp: Generator.PreparedProfile, t: int, wi: nat, j: nat, logs: int,
      rng: Rng, shard: Stats.LogStats, batch: Batch, counters: NeedleCounters, buffers: Buffers,
      ghost rng0: Rng, ghost tr0: Traces)
    returns (next: Rng)
    requires s.Ok() && s.concurrency > 0 && env.interval > 0 && Simulates(env, s, scn)
    requires pp.Valid() && pp.profile == s.profile && shard.Valid()
    requires Ran(scn.emit, t, WorkerJobs(scn, logs, wi, j), rng0, tr0, TracesOf(batch, shard, counters), rng)
    modifies shard, batch, counters, buffers, buffers.attrs, buffers.args
    ensures shard.Valid()
    ensures Ran(scn.emit, t, WorkerJobs(scn, logs, wi, j + 1), rng0, tr0, TracesOf(batch, shard, counters), next)
  {
    ghost var tr1 := TracesOf(batch, shard, counters);
    var idx := Partition.Instance(j, wi, s.scale, s.concurrency);
    if idx >= |s.resources| {
      RanNothing(scn.emit, t, rng, tr1);
      RanShare(scn, t, logs, wi, j, rng0, tr0, tr1, tr1, rng, rng);
      return rng;
    }
    next := RunInstance(env, s, scn, pp, t, idx, logs, rng, shard, batch, counters, buffers);
    RanShare(scn, t, logs, wi, j, rng0, tr0, tr1, TracesOf(batch, shard, counters), rng, next);
  }

  /** The body of a worker: its share of the instances, each with its skewed number of records. */
  method RunWorker(
      env: Env, s: Setup, ghost scn: Scenario, pp: Generator.PreparedProfile, t: int, wi: nat, logs: int, rng: Rng,
      shard: Stats.LogStats, batch: Batch, counters: NeedleCounters, buffers: Buffers)
    returns (next: Rng)
    requires s.Ok() && s.concurrency > 0 && env.interval > 0 && Simulates(env, s, scn)
    requires pp.Valid() && pp.profile == s.profile && shard.Valid()
    modifies shard, batch, counters, buffers, buffers.attrs, buffers.args
    ensures shard.Valid()
    ensures Ran(scn.emit, t, WorkerJobs(scn, logs, wi, s.scale / s.concurrency), rng,
                old(TracesOf(batch, shard, counters)), TracesOf(batch, shard, counters), next)
  {
    next := rng;
    ghost var tr0 := TracesOf(batch, shard, counters);
    RanNothing(scn.emit, t, rng, tr0);
    var q := Partition.PerWorker(s.scale, s.concurrency);
    for j := 0 to q
      invariant shard.Valid()
      invariant Ran(scn.emit, t, WorkerJobs(scn, logs, wi, j), rng, tr0, TracesOf(batch, shard, counters), next)
    {
      next := RunShare(env, s, scn, pp, t, wi, j, logs, next, shard, batch, counters, buffers, rng, tr0);
    }
  }

  /** Instance `i` of a sequential scenario that began with generator `rng0` and traces `tr0`. */
  method RunNextInstance(
      env: Env, s: Setup, ghost scn: Scenario, pp: Generator.PreparedProfile, t: int, i: nat, logs: int, rng: Rng,
      shard: Stats.LogStats, batch: Batch, counters: NeedleCounters, buffers: Buffers,
      ghost rng0: Rng, ghost tr0: Traces)
    returns (next: Rng)
    requires s.Ok() && i < s.scale && env.interval > 0 && Simulates(env, s, scn)
    requires pp.Valid() && pp.profile == s.profile && shard.Valid()
    requires Ran(scn.emit, t, SequentialJobs(scn, logs, i), rng0, tr0, TracesOf(batch, shard, counters), rng)
    modifies shard, batch, counters, buffers, buffers.attrs, buffers.args
    ensures shard.Valid()
    ensures Ran(scn.emit, t, SequentialJobs(scn, logs, i + 1), rng0, tr0, TracesOf(batch, shard, counters), next)
  {
    ghost var tr1 := TracesOf(batch, shard, counters);
    next := RunInstance(env, s, scn, pp, t, i, logs, rng, shard, batch, counters, buffers);
    RanInstance(scn, t, logs, i, rng0, tr0, tr1, TracesOf(batch, shard, counters), rng, next);
  }

  /** The body of a sequential scenario, on the main thread's generator. */
  method RunSequential(
      env: Env, s: Setup, ghost scn: Scenario, pp: Generator.PreparedProfile, t: int, logs: int, rng: Rng,
      shard: Stats.LogStats, batch: Batch, counters: NeedleCounters, buffers: Buffers)
    returns (next: Rng)
    requires s.Ok() && env.interval > 0 && Simulates(env, s, scn)
    requires pp.Valid() && pp.profile == s.profile && shard.Valid()
    modifies shard, batch, counters, buffers, buffers.attrs, buffers.args
    ensures shard.Valid()
    ensures Ran(scn.emit, t, SequentialJobs(scn, logs, s.scale), rng,
                old(TracesOf(batch, shard, counters)), TracesOf(batch, shard, counters), next)
  {
    next := rng;
    ghost var tr0 := TracesOf(batch, shard, counters);
    RanNothing(scn.emit, t, rng, tr0);
    for i := 0 to s.scale
      invariant shard.Valid()
      invariant Ran(scn.emit, t, SequentialJobs(scn, logs, i), rng, tr0, TracesOf(batch, shard, counters), next)
    {
      next := RunNextInstance(env, s, scn, pp, t, i, logs, next, shard, batch, counters, buffers, rng, tr0);
    }
  }
}
