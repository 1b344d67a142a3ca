/** One round of log production (`produceLogs`): the main thread and its workers as interleaved steps.

A step is one record emitted, one access to the shared total, one batch handed to the consumer, or
one piece of the main thread's control.  Emitting a record touches the thread's own generator, batch
and statistics shard, and adds to a needle counter atomically; the shared total is loaded and stored
in two steps by the main thread and added to atomically by workers, as in the program. */
module Rounds {
  import opened Rand
  import opened Records
  import opened Volume
  import Partition

  type Emit = (int, nat, Rng) -> (LogRecord, Rng)

  /** The parts of a scenario that a round uses.  `plan(time, phase, rng)` resolves the volume of one
      interval: the next phase of the burst state machine, the base number of records, and the generator
      afterwards.  `perInstance(logs, idx)` skews that number for instance `idx`, and `emit(time, idx, rng)`
      produces one record of instance `idx`.  All three are left open here. */
  datatype ScenarioCfg = Scenario(
    logsPerInterval: int,
    concurrency: int,
    scale: int,
    plan: (int, Phase, Rng) -> (Phase, int, Rng),
    perInstance: (int, nat) -> int,
    emit: Emit)
  {
    predicate Valid() {
      logsPerInterval >= 0 && concurrency >= 0 && scale >= 0
    }

    predicate Active() {
      logsPerInterval != 0
    }
  }

  const BLANK := LogRecord(0, Info, "", map[], map[], None, None)

  type Scenario = s: ScenarioCfg | s.Valid()
    witness Scenario(0, 0, 0, (t: int, ph: Phase, r: Rng) => (ph, 0, r), (n: int, idx: nat) => n,
                     (t: int, idx: nat, r: Rng) => (BLANK, r))

  datatype RoundCfg = Round(scenarios: seq<Scenario>, numShards: nat, time: int)

  type Round = r: RoundCfg | r.numShards > 0 witness Round([], 1, 0)

  // ----- the work of a thread

  function Times(idx: nat, n: int): seq<nat> {
    seq(if n > 0 then n else 0, _ => idx)
  }

  /** The instances for which a sequential scenario emits records, in order, one entry a record. */
  function SequentialJobs(s: Scenario, logs: int, n: nat): seq<nat>
    requires n <= s.scale
  {
    if n == 0 then []
    else SequentialJobs(s, logs, n - 1) + Times(n - 1, s.perInstance(logs, n - 1))
  }

  /** Likewise for the first `n` instances of worker `wi`. */
  function WorkerJobs(s: Scenario, logs: int, wi: nat, n: nat): seq<nat>
    requires s.concurrency > 0
  {
    if n == 0 then []
    else
      var idx := Partition.Instance(n - 1, wi, s.scale, s.concurrency);
      WorkerJobs(s, logs, wi, n - 1) +
      (if idx >= s.scale then [] else Times(idx, s.perInstance(logs, idx)))
  }

  function RunJobs(emit: Emit, time: int, jobs: seq<nat>, rng: Rng): (r: (seq<LogRecord>, Rng))
    ensures |r.0| == |jobs|
  {
    if jobs == [] then ([], rng)
    else
      var (rec, r1) := emit(time, jobs[0], rng);
      var (recs, r2) := RunJobs(emit, time, jobs[1..], r1);
      ([rec] + recs, r2)
  }

  // ----- states and steps

  datatype WorkerPc = Working | Counted | Finished

  datatype Worker = Worker(scn: nat, rng: Rng, shard: nat, jobs: seq<nat>, batch: seq<LogRecord>, pc: WorkerPc)

  datatype MainPc =
    | AtScenario(i: nat, shardBase: nat)
    | Emitting(i: nat, shardBase: nat, jobs: seq<nat>, batch: seq<LogRecord>)
    | Adding(i: nat, shardBase: nat, batch: seq<LogRecord>, seen: nat)
    | Sending(i: nat, shardBase: nat, batch: seq<LogRecord>)
    | Spawning(i: nat, shardBase: nat, logs: int, wi: nat)
    | Returned

  datatype State = State(
    main: MainPc,
    base: Rng,
    volumes: seq<Phase>,
    workers: seq<Worker>,
    shards: seq<seq<LogRecord>>,
    needles: multiset<string>,
    total: nat,
    sink: seq<seq<LogRecord>>)

  datatype Choice = Main | Step(k: nat)

  predicate PcOk(rd: Round, pc: MainPc) {
    match pc
    case AtScenario(i, _) => i <= |rd.scenarios|
    case Spawning(i, _, _, wi) =>
      i < |rd.scenarios| && wi <= rd.scenarios[i].concurrency && rd.scenarios[i].concurrency > 0
    case Returned => true
    case _ => pc.i < |rd.scenarios|
  }

  predicate WorkerOk(rd: Round, w: Worker) {
    && w.scn < |rd.scenarios|
    && w.shard < rd.numShards
    && (w.pc != Working ==> w.jobs == [])
  }

  predicate AllFinished(ws: seq<Worker>) {
    forall k | 0 <= k < |ws| :: ws[k].pc == Finished
  }

  predicate Ok(rd: Round, s: State) {
    && PcOk(rd, s.main)
    && |s.volumes| == |rd.scenarios|
    && |s.shards| == rd.numShards
    && (forall k | 0 <= k < |s.workers| :: WorkerOk(rd, s.workers[k]))
    && (s.main.Returned? ==> AllFinished(s.workers))
  }

  /** A thread records `rec` in its shard and, if a needle replaced it, in that needle's counter. */
  function Note(s: State, shard: nat, rec: LogRecord): State
    requires shard < |s.shards|
  {
    s.(shards := s.shards[shard := s.shards[shard] + [rec]], needles := s.needles + NeedleBag(rec))
  }

  function NewWorker(rd: Round, i: nat, shardBase: nat, logs: int, wi: nat, rng: Rng): Worker
    requires i < |rd.scenarios| && rd.scenarios[i].concurrency > 0
  {
    var s := rd.scenarios[i];
    Worker(i, rng, (shardBase + wi) % rd.numShards, WorkerJobs(s, logs, wi, s.scale / s.concurrency), [], Working)
  }

  predicate Enabled(rd: Round, s: State, c: Choice) {
    match c
    case Main =>
      && !s.main.Returned?
      && (s.main.AtScenario? && s.main.i == |rd.scenarios| ==> AllFinished(s.workers))
    case Step(k) => k < |s.workers| && s.workers[k].pc != Finished
  }

  function StepMain(rd: Round, s: State): State
    requires Ok(rd, s) && Enabled(rd, s, Main)
  {
    match s.main
    case AtScenario(i, sb) =>
      if i == |rd.scenarios| then s.(main := Returned)
      else if !rd.scenarios[i].Active() then s.(main := AtScenario(i + 1, sb))
      else
        var scn := rd.scenarios[i];
        var (ph, logs, r) := scn.plan(rd.time, s.volumes[i], s.base);
        s.(base := r, volumes := s.volumes[i := ph],
           main := if scn.concurrency == 0 then Emitting(i, sb, SequentialJobs(scn, logs, scn.scale), [])
                   else Spawning(i, sb, logs, 0))
    case Emitting(i, sb, jobs, batch) =>
      if jobs == [] then s.(main := Adding(i, sb, batch, s.total))
      else
        var (rec, r) := rd.scenarios[i].emit(rd.time, jobs[0], s.base);
        Note(s, 0, rec).(base := r, main := Emitting(i, sb, jobs[1..], batch + [rec]))
    case Adding(i, sb, batch, seen) => s.(total := seen + |batch|, main := Sending(i, sb, batch))
    case Sending(i, sb, batch) => s.(sink := s.sink + [batch], main := AtScenario(i + 1, sb))
    case Spawning(i, sb, logs, wi) =>
      if wi >= rd.scenarios[i].concurrency then s.(main := AtScenario(i + 1, sb + rd.scenarios[i].concurrency))
      else
        var (r, next) := s.base.Split();
        s.(base := next, workers := s.workers + [NewWorker(rd, i, sb, logs, wi, r)],
           main := Spawning(i, sb, logs, wi + 1))
    case Returned => s
  }

  function StepWorker(rd: Round, s: State, k: nat): State
    requires Ok(rd, s) && Enabled(rd, s, Step(k))
  {
    var w := s.workers[k];
    match w.pc
    case Working =>
      if w.jobs == [] then s.(total := s.total + |w.batch|, workers := s.workers[k := w.(pc := Counted)])
      else
        var (rec, r) := rd.scenarios[w.scn].emit(rd.time, w.jobs[0], w.rng);
        Note(s, w.shard, rec).(workers := s.workers[k := w.(rng := r, jobs := w.jobs[1..], batch := w.batch + [rec])])
    case Counted => s.(sink := s.sink + [w.batch], workers := s.workers[k := w.(pc := Finished)])
    case Finished => s
  }

  function Next(rd: Round, s: State, c: Choice): (s': State)
    requires Ok(rd, s) && Enabled(rd, s, c)
    ensures Ok(rd, s')
  {
    match c
    case Main => StepMain(rd, s)
    case Step(k) => StepWorker(rd, s, k)
  }

  /** A schedule runs as long as its choices are enabled; a choice that is not is passed over. */
  function Exec(rd: Round, s: State, schedule: seq<Choice>): (s': State)
    requires Ok(rd, s)
    ensures Ok(rd, s')
    decreases |schedule|
  {
    if schedule == [] then s
    else Exec(rd, if Enabled(rd, s, schedule[0]) then Next(rd, s, schedule[0]) else s, schedule[1..])
  }

  /** What persists from round to round. */
  datatype Store = Store(
    base: Rng, volumes: seq<Phase>, shards: seq<seq<LogRecord>>, needles: multiset<string>, sink: seq<seq<LogRecord>>)

  predicate StoreOk(rd: Round, st: Store) {
    |st.volumes| == |rd.scenarios| && |st.shards| == rd.numShards
  }

  function Begin(rd: Round, st: Store): (s: State)
    requires StoreOk(rd, st)
    ensures Ok(rd, s)
  {
    State(AtScenario(0, 1), st.base, st.volumes, [], st.shards, st.needles, 0, st.sink)
  }

  function End(s: State): Store {
    Store(s.base, s.volumes, s.shards, s.needles, s.sink)
  }
}
