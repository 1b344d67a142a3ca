/** Every record of a round carries a time inside the round's interval. */
module Timestamps {
  import opened Rand
  import opened Records
  import opened Rounds
  import opened Lifecycle

  predicate Stamped(rec: LogRecord, time: int, interval: int) {
    time <= rec.time < time + interval
  }

  ghost predicate AllStamped(recs: seq<LogRecord>, time: int, interval: int) {
    forall i | 0 <= i < |recs| :: Stamped(recs[i], time, interval)
  }

  ghost predicate BatchesStamped(batches: seq<seq<LogRecord>>, from: nat, time: int, interval: int) {
    from <= |batches| && forall i | from <= i < |batches| :: AllStamped(batches[i], time, interval)
  }

  /** What jitter guarantees of every record a scenario emits. */
  ghost predicate Punctual(s: Scenario, interval: int) {
    forall t: int, idx: nat, r: Rng :: Stamped(s.emit(t, idx, r).0, t, interval)
  }

  ghost predicate RoundStamped(rd: Round, s: State, sent: nat, interval: int) {
    && BatchesStamped(s.sink, sent, rd.time, interval)
    && (forall k | 0 <= k < |s.workers| :: AllStamped(s.workers[k].batch, rd.time, interval))
    && (s.main.Emitting? || s.main.Adding? || s.main.Sending? ==> AllStamped(s.main.batch, rd.time, interval))
  }

  lemma StepStamps(rd: Round, s: State, c: Choice, sent: nat, interval: int)
    requires Ok(rd, s) && Enabled(rd, s, c) && RoundStamped(rd, s, sent, interval)
    requires forall i | 0 <= i < |rd.scenarios| :: Punctual(rd.scenarios[i], interval)
    ensures RoundStamped(rd, Next(rd, s, c), sent, interval)
  {
    match c
    case Main =>
    case Step(k) => assert WorkerOk(rd, s.workers[k]);
  }

  ghost predicate RunStamped(cfg: RunCfg, r: RunState)
    requires Wf(cfg, r)
  {
    && (forall k | 0 <= k < |r.past| - 1 ::
          BatchesStamped(r.past[k + 1].sink, |r.past[k].sink|, cfg.RoundAt(k).time, cfg.interval))
    && (r.loop.Body? ==>
          RoundStamped(cfg.RoundAt(|r.past| - 1), r.loop.round, |r.past[|r.past| - 1].sink|, cfg.interval))
  }

  lemma RunStepStamps(cfg: RunCfg, r: RunState, c: RunChoice)
    requires Wf(cfg, r) && RunEnabled(cfg, r, c) && RunStamped(cfg, r)
    requires forall i | 0 <= i < |cfg.scenarios| :: Punctual(cfg.scenarios[i], cfg.interval)
    ensures RunStamped(cfg, RunNext(cfg, r, c))
  {
    var n := |r.past| - 1;
    if c.Thread? {
      StepStamps(cfg.RoundAt(n), r.loop.round, c.c, |r.past[n].sink|, cfg.interval);
    } else {
      var r' := RunNext(cfg, r, c);
      forall k | 0 <= k < |r'.past| - 1
        ensures BatchesStamped(r'.past[k + 1].sink, |r'.past[k].sink|, cfg.RoundAt(k).time, cfg.interval)
      {
        if k < n {
          assert r'.past[k] == r.past[k] && r'.past[k + 1] == r.past[k + 1];
        }
      }
    }
  }

  lemma {:induction false} RunExecStamps(cfg: RunCfg, r: RunState, schedule: seq<RunChoice>)
    requires Wf(cfg, r) && RunStamped(cfg, r)
    requires forall i | 0 <= i < |cfg.scenarios| :: Punctual(cfg.scenarios[i], cfg.interval)
    ensures RunStamped(cfg, RunExec(cfg, r, schedule))
    decreases |schedule|
  {
    if schedule != [] {
      if RunEnabled(cfg, r, schedule[0]) {
        RunStepStamps(cfg, r, schedule[0]);
        RunExecStamps(cfg, RunNext(cfg, r, schedule[0]), schedule[1..]);
      } else {
        RunExecStamps(cfg, r, schedule[1..]);
      }
    }
  }

  /** On every schedule, the records sent in round `k` are stamped in
      [start + k * interval, start + (k + 1) * interval). */
  lemma RoundsDoNotOverlap(cfg: RunCfg, schedule: seq<RunChoice>, k: nat)
    requires cfg.Valid() && k + 1 < |RunExec(cfg, Boot(cfg), schedule).past|
    requires forall i | 0 <= i < |cfg.scenarios| :: Punctual(cfg.scenarios[i], cfg.interval)
    ensures var past := RunExec(cfg, Boot(cfg), schedule).past;
            BatchesStamped(past[k + 1].sink, |past[k].sink|, cfg.start + k * cfg.interval, cfg.interval)
  {
    RunExecStamps(cfg, Boot(cfg), schedule);
  }
}
