/** The receiver: what the theorems about rounds, runs and statistics say of it together. */
module Receiver {
  import opened Rand
  import opened Records
  import opened Bags
  import opened Volume
  import opened Rounds
  import opened Shards
  import opened RoundTotal
  import opened Lifecycle
  import opened RunProgress
  import opened RunTotal
  import opened Timestamps
  import opened Emission
  import opened BatchOrder
  import opened OutputOrder
  import Stats

  function ScenariosOf(env: Env, setups: seq<Setup>): (scns: seq<Scenario>)
    requires env.interval > 0 && forall i | 0 <= i < |setups| :: setups[i].Ok()
    ensures |scns| == |setups|
  {
    if setups == [] then []
    else ScenariosOf(env, setups[..|setups| - 1]) + [ScenarioOf(env, setups[|setups| - 1])]
  }

  lemma {:induction false} EachMeetsHypotheses(env: Env, setups: seq<Setup>)
    requires env.interval > 0 && forall i | 0 <= i < |setups| :: setups[i].Ok()
    ensures forall i | 0 <= i < |setups| ::
              Lively(ScenariosOf(env, setups)[i]) && Punctual(ScenariosOf(env, setups)[i], env.interval)
  {
    if setups != [] {
      EachMeetsHypotheses(env, setups[..|setups| - 1]);
      ScenarioMeetsHypotheses(env, setups[|setups| - 1]);
    }
  }

  /** A receiver about to start: every shard empty, every volume state idle. */
  function RunOf(env: Env, setups: seq<Setup>, base: Rng, start: int, end: int): (cfg: RunCfg)
    requires env.interval > 0 && forall i | 0 <= i < |setups| :: setups[i].Ok()
    ensures cfg.Valid()
  {
    var scns := ScenariosOf(env, setups);
    var numShards := 1 + AllConcurrency(scns);
    RunCfg(scns, numShards, start, end, env.interval,
           Store(base, seq(|scns|, _ => Phase(0.0, 0)), seq(numShards, _ => []), multiset{}, []))
  }

  /** The merged shards as the cardinality index sees them. */
  function ViewsOf(cfg: RunCfg, shards: seq<seq<LogRecord>>): seq<Stats.View> {
    seq(|shards|, k requires 0 <= k < |shards| => Stats.View(k in Shards.Tracked(cfg.scenarios), shards[k]))
  }

  lemma {:induction false} ViewsKeepStreams(views: seq<Stats.View>, shards: seq<seq<LogRecord>>)
    requires |views| == |shards| && forall k | 0 <= k < |views| :: views[k].stream == shards[k]
    ensures Stats.StreamsOf(views) == shards
  {
    if views != [] {
      ViewsKeepStreams(views[..|views| - 1], shards[..|shards| - 1]);
    }
  }

  predicate LoneWorkers(scns: seq<Scenario>) {
    forall i | 0 <= i < |scns| :: scns[i].concurrency <= 1
  }

  /** The index of a field holds values of sent records only; it holds all that the tracked shards saw unless
      one of them was overrun, and then all there are if no scenario has more than one worker. */
  ghost predicate FaithfulIndex(views: seq<Stats.View>, lone: bool, sent: seq<LogRecord>, key: string) {
    && Stats.Kept(views, key) <= Stats.Elements(Stats.Values(sent, key))
    && (Stats.NotOverrun(views, key) ==> Stats.Kept(views, key) == Stats.Tracked(views, key))
    && (Stats.NotOverrun(views, key) && lone ==> Stats.Kept(views, key) == Stats.Elements(Stats.Values(sent, key)))
  }

  /** The merged statistics are those of the records sent: every counter is what one shard that recorded the
      sent records would hold, the severities add up to the number of records, the needle counters to the
      number of replaced ones, and the index is faithful. */
  ghost predicate FaithfulReport(cfg: RunCfg, r: RunState)
    requires r.past != [] && r.shutdown.Merged?
  {
    var sent := Flatten(Current(r).sink);
    && Stats.TallyOf(Flatten(r.shutdown.shards)) == Stats.TallyOf(sent)
    && |Sum(sent, Stats.SeverityBag)| == |sent|
    && |r.shutdown.needles| == Replaced(sent)
    && forall key :: FaithfulIndex(ViewsOf(cfg, r.shutdown.shards), LoneWorkers(cfg.scenarios), sent, key)
  }

  /** The number of records reported beside them never exceeds that of the records sent, and is that number
      where sequential scenarios come first. */
  ghost predicate FaithfulCount(cfg: RunCfg, r: RunState)
    requires r.past != [] && r.shutdown.Merged?
  {
    var sent := Flatten(Current(r).sink);
    r.shutdown.logs <= |sent| && (SequentialFirst(cfg.scenarios) ==> r.shutdown.logs == |sent|)
  }

  lemma LoneWorkersAllTrack(cfg: RunCfg, shards: seq<seq<LogRecord>>)
    requires |shards| == 1 + AllConcurrency(cfg.scenarios) && LoneWorkers(cfg.scenarios)
    ensures forall k | 0 <= k < |shards| :: ViewsOf(cfg, shards)[k].tracks
  {
    forall k | 0 <= k < |shards|
      ensures k in Shards.Tracked(cfg.scenarios)
    {
      LoneWorkersTracked(cfg.scenarios, k);
    }
  }

  lemma IndexIsFaithful(cfg: RunCfg, shards: seq<seq<LogRecord>>, sent: seq<LogRecord>, key: string)
    requires |shards| == 1 + AllConcurrency(cfg.scenarios)
    requires multiset(Flatten(shards)) == multiset(sent)
    ensures FaithfulIndex(ViewsOf(cfg, shards), LoneWorkers(cfg.scenarios), sent, key)
  {
    var views := ViewsOf(cfg, shards);
    ViewsKeepStreams(views, shards);
    if LoneWorkers(cfg.scenarios) {
      LoneWorkersAllTrack(cfg, shards);
    }
    Stats.IndexOfTheStream(views, sent, key);
  }

  lemma CountIsFaithful(cfg: RunCfg, schedule: seq<RunChoice>)
    requires cfg.Valid()
    requires var r := RunExec(cfg, Boot(cfg), schedule); r.shutdown.Merged? && r.shutdown.done.ClosedByRun?
    ensures FaithfulCount(cfg, RunExec(cfg, Boot(cfg), schedule))
  {
    BootInv(cfg);
    ScheduleCounted(cfg, Boot(cfg), schedule);
    ShutdownMergesEverything(cfg, schedule);
    SentIsFlat(Current(RunExec(cfg, Boot(cfg), schedule)));
  }

  lemma ReportIsFaithful(cfg: RunCfg, schedule: seq<RunChoice>)
    requires cfg.Valid()
    requires var r := RunExec(cfg, Boot(cfg), schedule); r.shutdown.Merged? && r.shutdown.done.ClosedByRun?
    ensures FaithfulReport(cfg, RunExec(cfg, Boot(cfg), schedule))
  {
    var r := RunExec(cfg, Boot(cfg), schedule);
    var sent := Flatten(Current(r).sink);
    ShutdownMergesEverything(cfg, schedule);
    BootInv(cfg);
    RunKeeps(cfg, Boot(cfg), schedule);
    Stats.MergeCountsTheStream(r.shutdown.shards, sent);
    Stats.SeveritiesAddUp(sent);
    NeedlesAddUp(sent);
    forall key
      ensures FaithfulIndex(ViewsOf(cfg, r.shutdown.shards), LoneWorkers(cfg.scenarios), sent, key)
    {
      IndexIsFaithful(cfg, r.shutdown.shards, sent, key);
    }
  }

  /** The batches of round `k` are stamped in [start + k * interval, start + (k + 1) * interval). */
  ghost predicate AllRoundsStamped(past: seq<Store>, start: int, interval: int) {
    forall k: nat | k + 1 < |past| ::
      BatchesStamped(past[k + 1].sink, |past[k].sink|, start + k * interval, interval)
  }

  lemma RoundsStamped(cfg: RunCfg, schedule: seq<RunChoice>)
    requires cfg.Valid() && forall i | 0 <= i < |cfg.scenarios| :: Punctual(cfg.scenarios[i], cfg.interval)
    ensures AllRoundsStamped(RunExec(cfg, Boot(cfg), schedule).past, cfg.start, cfg.interval)
  {
    var past := RunExec(cfg, Boot(cfg), schedule).past;
    forall k: nat | k + 1 < |past|
      ensures BatchesStamped(past[k + 1].sink, |past[k].sink|, cfg.start + k * cfg.interval, cfg.interval)
    {
      RoundsDoNotOverlap(cfg, schedule, k);
    }
  }

  /** After a run that was shut down in order, on whatever schedule and whenever it was cancelled, the report
      says of the records sent what it should, and every round's records are stamped within the round. */
  lemma ReportCountsWhatWasSent(
      env: Env, setups: seq<Setup>, base: Rng, start: int, end: int, schedule: seq<RunChoice>)
    requires env.interval > 0 && forall i | 0 <= i < |setups| :: setups[i].Ok()
    requires var cfg := RunOf(env, setups, base, start, end);
             var r := RunExec(cfg, Boot(cfg), schedule);
             r.shutdown.Merged? && r.shutdown.done.ClosedByRun?
    ensures var cfg := RunOf(env, setups, base, start, end);
            var r := RunExec(cfg, Boot(cfg), schedule);
            && FaithfulReport(cfg, r) && FaithfulCount(cfg, r)
            && AllRoundsStamped(r.past, start, env.interval)
  {
    var cfg := RunOf(env, setups, base, start, end);
    ReportIsFaithful(cfg, schedule);
    CountIsFaithful(cfg, schedule);
    EachMeetsHypotheses(env, setups);
    RoundsStamped(cfg, schedule);
  }

  /** Every run that has started can be shut down and then reports. */
  lemma ReportCanBeHad(
      env: Env, setups: seq<Setup>, base: Rng, start: int, end: int, schedule: seq<RunChoice>)
    returns (more: seq<RunChoice>)
    requires env.interval > 0 && forall i | 0 <= i < |setups| :: setups[i].Ok()
    requires var cfg := RunOf(env, setups, base, start, end);
             var r := RunExec(cfg, Boot(cfg), schedule);
             !r.loop.NotStarted? && r.shutdown.NotCalled?
    ensures var cfg := RunOf(env, setups, base, start, end);
            var r := RunExec(cfg, Boot(cfg), schedule + more);
            && r.shutdown.Merged? && r.shutdown.done.ClosedByRun?
            && FaithfulReport(cfg, r) && FaithfulCount(cfg, r)
  {
    var cfg := RunOf(env, setups, base, start, end);
    more := ShutdownCompletes(cfg, RunExec(cfg, Boot(cfg), schedule));
    RunExecAppend(cfg, Boot(cfg), schedule, more);
    ReportIsFaithful(cfg, schedule + more);
    CountIsFaithful(cfg, schedule + more);
  }

  /** The number of records that a needle replaced. */
  function Replaced(recs: seq<LogRecord>): nat {
    if recs == [] then 0 else Replaced(recs[..|recs| - 1]) + if recs[|recs| - 1].needle.Some? then 1 else 0
  }

  lemma {:induction false} NeedlesAddUp(recs: seq<LogRecord>)
    ensures |Sum(recs, NeedleBag)| == Replaced(recs)
  {
    if recs != [] {
      NeedlesAddUp(recs[..|recs| - 1]);
    }
  }

  /** The receiver reports the exact number of records of every round, and of every run, on every schedule,
      exactly when no sequential scenario follows a concurrent one; of a run also if there is no interval to
      simulate. */
  lemma ReceiverTotalExactIff(env: Env, setups: seq<Setup>, base: Rng, start: int, end: int, time: int, st: Store)
    requires env.interval > 0 && forall i | 0 <= i < |setups| :: setups[i].Ok()
    requires StoreOk(RoundOf(env, setups, time), st)
    ensures (forall schedule :: TotalExact(RoundOf(env, setups, time), st, schedule))
            <==> SequentialFirst(ScenariosOf(env, setups))
    ensures (forall schedule :: CountExact(RunOf(env, setups, base, start, end), schedule))
            <==> SequentialFirst(ScenariosOf(env, setups)) || start >= end
  {
    EachMeetsHypotheses(env, setups);
    TotalExactIffSequentialFirst(RoundOf(env, setups, time), st);
    CountExactIff(RunOf(env, setups, base, start, end));
  }

  function RoundOf(env: Env, setups: seq<Setup>, time: int): Round
    requires env.interval > 0 && forall i | 0 <= i < |setups| :: setups[i].Ok()
  {
    var scns := ScenariosOf(env, setups);
    Round(scns, 1 + AllConcurrency(scns), time)
  }

  // ----- identical output

  /** No two instances share a resource, as when templates put the instance's number or a random identifier
      into it. */
  predicate DistinctResources(setups: seq<Setup>) {
    forall i, idx, j, jdx |
      0 <= i < |setups| && 0 <= idx < |setups[i].resources| && 0 <= j < |setups| && 0 <= jdx < |setups[j].resources|
      && setups[i].resources[idx] == setups[j].resources[jdx] ::
      i == j && idx == jdx
  }

  lemma {:induction false} ScenariosKeepShape(env: Env, setups: seq<Setup>)
    requires env.interval > 0 && forall i | 0 <= i < |setups| :: setups[i].Ok()
    ensures forall i | 0 <= i < |setups| :: ScenariosOf(env, setups)[i] == ScenarioOf(env, setups[i])
  {
    if setups != [] {
      ScenariosKeepShape(env, setups[..|setups| - 1]);
    }
  }

  lemma EmitsItsResource(env: Env, s: Setup, idx: nat, rec: LogRecord)
    requires env.interval > 0 && s.Ok() && idx < s.scale && EmitsAt(ScenarioOf(env, s), idx, rec)
    ensures rec.resource == s.resources[idx]
  {
    var t: int, r: Rng :| ScenarioOf(env, s).emit(t, idx, r).0 == rec;
    OneRecordStamped(env, s, t, idx, r);
  }

  lemma ResourcesDistinguish(env: Env, setups: seq<Setup>)
    requires env.interval > 0 && (forall i | 0 <= i < |setups| :: setups[i].Ok()) && DistinctResources(setups)
    ensures Distinguishable(ScenariosOf(env, setups))
  {
    var scns := ScenariosOf(env, setups);
    ScenariosKeepShape(env, setups);
    forall i: nat, idx: nat, j: nat, jdx: nat, rec |
      i < |scns| && idx < scns[i].scale && j < |scns| && jdx < scns[j].scale
      && EmitsAt(scns[i], idx, rec) && EmitsAt(scns[j], jdx, rec)
      ensures i == j && idx == jdx
    {
      EmitsItsResource(env, setups[i], idx, rec);
      EmitsItsResource(env, setups[j], jdx, rec);
    }
  }

  /** Where no two instances share a resource, the order of the batches of every round is fixed exactly when
      the list of scenarios is orderly, and the output of whole runs is identical, to the order of the batches,
      exactly when it is or there is no interval to simulate. */
  lemma ReceiverOutputIdenticalIff(
      env: Env, setups: seq<Setup>, base: Rng, start: int, end: int, time: int, st: Store)
    requires env.interval > 0 && (forall i | 0 <= i < |setups| :: setups[i].Ok()) && DistinctResources(setups)
    requires StoreOk(RoundOf(env, setups, time), st)
    ensures OrderFixed(RoundOf(env, setups, time), st) <==> Orderly(ScenariosOf(env, setups))
    ensures OutputIdentical(RunOf(env, setups, base, start, end))
            <==> Orderly(ScenariosOf(env, setups)) || start >= end
  {
    EachMeetsHypotheses(env, setups);
    ResourcesDistinguish(env, setups);
    ReceiverHasRoom(RoundOf(env, setups, time));
    OrderFixedIffOrderly(RoundOf(env, setups, time), st);
    OutputIdenticalIff(RunOf(env, setups, base, start, end));
  }
}
