/** When the output of a round is the same to the order of its batches, read off the list of scenarios.

`BatchOrder` says that the order is fixed exactly when the batches sent once a worker has been spawned are all
alike.  Where no two instances can emit the same record, that is exactly when there is at most one such batch
or none of them holds a record. */
module OutputOrder {
  import opened Rand
  import opened Records
  import opened Volume
  import opened Rounds
  import opened Determinism
  import opened Shards
  import opened RoundTotal
  import opened Lifecycle
  import opened RunProgress
  import opened BatchOrder
  import opened Turns
  import Partition

  // ----- the condition

  /** A scenario whose threads have instances to simulate. */
  predicate Busy(s: Scenario) {
    s.Active() && if s.concurrency == 0 then s.scale > 0 else s.scale / s.concurrency > 0
  }

  /** From the first scenario that spawns workers on, no scenario has instances to simulate. */
  predicate LateIdle(scns: seq<Scenario>) {
    forall i, j | 0 <= i <= j < |scns| && Spawns(scns[i]) :: !Busy(scns[j])
  }

  /** At most one batch is sent once a worker has been spawned, or none of those sent then holds a record. */
  predicate Orderly(scns: seq<Scenario>) {
    LateFrom(scns, 0) <= 1 || LateIdle(scns)
  }

  /** The scenario can emit the record from instance `idx`. */
  ghost predicate EmitsAt(s: Scenario, idx: nat, rec: LogRecord) {
    exists t: int, r: Rng :: s.emit(t, idx, r).0 == rec
  }

  /** No two instances, of one scenario or of two, can emit the same record. */
  ghost predicate Distinguishable(scns: seq<Scenario>) {
    forall i: nat, idx: nat, j: nat, jdx: nat, rec |
      i < |scns| && idx < scns[i].scale && j < |scns| && jdx < scns[j].scale
      && EmitsAt(scns[i], idx, rec) && EmitsAt(scns[j], jdx, rec) ::
      i == j && idx == jdx
  }

  // ----- the records of a batch

  /** Every record of the batch comes from a scenario after number `i`, or from that one's instance `x` or a
      later one. */
  ghost predicate From(scns: seq<Scenario>, i: nat, x: nat, batch: seq<LogRecord>) {
    forall k | 0 <= k < |batch| :: OriginFrom(scns, i, x, batch[k])
  }

  ghost predicate OriginFrom(scns: seq<Scenario>, i: nat, x: nat, rec: LogRecord) {
    exists j: nat, idx: nat ::
      j < |scns| && idx < scns[j].scale && EmitsAt(scns[j], idx, rec) && (i < j || (i == j && x <= idx))
  }

  /** Every record of the batch comes from an instance of scenario `i` below `x`. */
  ghost predicate Before(scns: seq<Scenario>, i: nat, x: nat, batch: seq<LogRecord>) {
    forall k | 0 <= k < |batch| :: OriginBefore(scns, i, x, batch[k])
  }

  ghost predicate OriginBefore(scns: seq<Scenario>, i: nat, x: nat, rec: LogRecord) {
    exists idx: nat :: i < |scns| && idx < scns[i].scale && EmitsAt(scns[i], idx, rec) && idx < x
  }

  lemma NotBoth(scns: seq<Scenario>, i: nat, x: nat, rec: LogRecord)
    requires Distinguishable(scns) && OriginBefore(scns, i, x, rec)
    ensures !OriginFrom(scns, i, x, rec)
  {
  }

  lemma BeforeIsNotFrom(scns: seq<Scenario>, i: nat, x: nat, a: seq<LogRecord>, b: seq<LogRecord>)
    requires Distinguishable(scns) && Before(scns, i, x, a) && From(scns, i, x, b) && a != []
    ensures a != b
  {
    NotBoth(scns, i, x, a[0]);
    assert b != [] ==> OriginFrom(scns, i, x, b[0]);
  }

  lemma {:induction false} JobsEmit(s: Scenario, t: int, jobs: seq<nat>, rng: Rng, k: nat)
    requires k < |jobs|
    ensures EmitsAt(s, jobs[k], RunJobs(s.emit, t, jobs, rng).0[k])
    decreases |jobs|
  {
    var (rec, r1) := s.emit(t, jobs[0], rng);
    if k > 0 {
      JobsEmit(s, t, jobs[1..], r1, k - 1);
    }
  }

  /** The jobs of a worker lie in its share. */
  lemma {:induction false} WorkerJobsRange(s: Scenario, logs: int, wi: nat, n: nat, k: nat)
    requires s.concurrency > 0 && k < |WorkerJobs(s, logs, wi, n)|
    ensures var start := Partition.Offset(wi, s.scale, s.concurrency);
            start <= WorkerJobs(s, logs, wi, n)[k] < start + n && WorkerJobs(s, logs, wi, n)[k] < s.scale
    decreases n
  {
    if k < |WorkerJobs(s, logs, wi, n - 1)| {
      WorkerJobsRange(s, logs, wi, n - 1, k);
    }
  }

  lemma {:induction false} SequentialJobsRange(s: Scenario, logs: int, n: nat, k: nat)
    requires n <= s.scale && k < |SequentialJobs(s, logs, n)|
    ensures SequentialJobs(s, logs, n)[k] < n
    decreases n
  {
    if k < |SequentialJobs(s, logs, n - 1)| {
      SequentialJobsRange(s, logs, n - 1, k);
    }
  }

  lemma FirstWorkerBefore(rd: Round, i: nat, logs: int, r: Rng)
    requires i < |rd.scenarios| && rd.scenarios[i].concurrency > 0
    ensures var s := rd.scenarios[i];
            Before(rd.scenarios, i, s.scale / s.concurrency, WorkerBatchOf(rd, i, logs, 0, r))
  {
    var s := rd.scenarios[i];
    var jobs, q := WorkerJobs(s, logs, 0, s.scale / s.concurrency), s.scale / s.concurrency;
    var batch := WorkerBatchOf(rd, i, logs, 0, r);
    forall k | 0 <= k < |batch|
      ensures OriginBefore(rd.scenarios, i, q, batch[k])
    {
      JobsEmit(s, rd.time, jobs, r, k);
      WorkerJobsRange(s, logs, 0, q, k);
      assert Partition.Offset(0, s.scale, s.concurrency) == 0;
    }
  }

  lemma LaterWorkerFrom(rd: Round, i: nat, logs: int, wi: nat, r: Rng)
    requires i < |rd.scenarios| && rd.scenarios[i].concurrency > 0 && wi > 0
    ensures var s := rd.scenarios[i];
            From(rd.scenarios, i, s.scale / s.concurrency, WorkerBatchOf(rd, i, logs, wi, r))
  {
    var s := rd.scenarios[i];
    var jobs, q := WorkerJobs(s, logs, wi, s.scale / s.concurrency), s.scale / s.concurrency;
    var batch := WorkerBatchOf(rd, i, logs, wi, r);
    Partition.OffsetApart(0, wi, s.scale, s.concurrency);
    forall k | 0 <= k < |batch|
      ensures OriginFrom(rd.scenarios, i, q, batch[k])
    {
      JobsEmit(s, rd.time, jobs, r, k);
      WorkerJobsRange(s, logs, wi, q, k);
    }
  }

  lemma WorkerFrom(rd: Round, i: nat, logs: int, wi: nat, r: Rng, f: nat, x: nat)
    requires f < i < |rd.scenarios| && rd.scenarios[i].concurrency > 0
    ensures From(rd.scenarios, f, x, WorkerBatchOf(rd, i, logs, wi, r))
  {
    var s := rd.scenarios[i];
    var jobs, batch := WorkerJobs(s, logs, wi, s.scale / s.concurrency), WorkerBatchOf(rd, i, logs, wi, r);
    forall k | 0 <= k < |batch|
      ensures OriginFrom(rd.scenarios, f, x, batch[k])
    {
      JobsEmit(s, rd.time, jobs, r, k);
      WorkerJobsRange(s, logs, wi, s.scale / s.concurrency, k);
    }
  }

  lemma MainFrom(rd: Round, i: nat, logs: int, r: Rng, f: nat, x: nat)
    requires f < i < |rd.scenarios|
    ensures From(rd.scenarios, f, x, MainBatchOf(rd, i, logs, r))
  {
    var s := rd.scenarios[i];
    var jobs, batch := SequentialJobs(s, logs, s.scale), MainBatchOf(rd, i, logs, r);
    forall k | 0 <= k < |batch|
      ensures OriginFrom(rd.scenarios, f, x, batch[k])
    {
      JobsEmit(s, rd.time, jobs, r, k);
      SequentialJobsRange(s, logs, s.scale, k);
    }
  }

  lemma MainBatchFull(rd: Round, i: nat, logs: int, r: Rng)
    requires i < |rd.scenarios| && rd.scenarios[i].concurrency == 0
    ensures rd.scenarios[i].scale == 0 ==> MainBatchOf(rd, i, logs, r) == []
    ensures Busy(rd.scenarios[i]) && Lively(rd.scenarios[i]) && logs >= 1 ==> MainBatchOf(rd, i, logs, r) != []
  {
    var s := rd.scenarios[i];
    if Busy(s) && Lively(s) && logs >= 1 {
      assert Times(s.scale - 1, s.perInstance(logs, s.scale - 1)) != [];
    }
  }

  lemma FirstWorkerFull(rd: Round, i: nat, logs: int, r: Rng)
    requires i < |rd.scenarios| && Busy(rd.scenarios[i]) && rd.scenarios[i].concurrency > 0
    requires Lively(rd.scenarios[i]) && logs >= 1
    ensures WorkerBatchOf(rd, i, logs, 0, r) != []
  {
    WorkerHasJobs(rd.scenarios[i], logs);
  }

  // ----- what the turns from a scenario on send

  lemma TurnFrom(rd: Round, i: nat, base: Rng, volumes: seq<Phase>, f: nat, x: nat, b: seq<LogRecord>)
    requires |volumes| == |rd.scenarios| && f < i < |rd.scenarios|
    requires b in TurnOf(rd, i, base, volumes).sent
    ensures From(rd.scenarios, f, x, b)
  {
    var s, t := rd.scenarios[i], TurnOf(rd, i, base, volumes);
    var k :| 0 <= k < |t.sent| && t.sent[k] == b;
    if s.concurrency == 0 {
      MainFrom(rd, i, t.logs, t.from, f, x);
    } else {
      var r := TeamMember(rd, i, t.logs, 0, t.from, k);
      WorkerFrom(rd, i, t.logs, k, r, f, x);
    }
  }

  /** What scenario `i` and later ones send comes from there. */
  lemma SendsFrom(
      rd: Round, turn: TurnFunction, i: nat, base: Rng, volumes: seq<Phase>, f: nat, x: nat, b: seq<LogRecord>)
    requires Describes(turn, rd) && |volumes| == |rd.scenarios| && f < i
    requires b in Sends(turn, |rd.scenarios|, i, base, volumes)
    ensures From(rd.scenarios, f, x, b)
  {
    forall k: nat, r: Rng, v: seq<Phase>, c |
      i <= k < |rd.scenarios| && |v| == |volumes| && c in turn(k, r, v).sent
      ensures From(rd.scenarios, f, x, c)
    {
      assert turn(k, r, v) == TurnOf(rd, k, r, v);
      TurnFrom(rd, k, r, v, f, x, c);
    }
    SendsAll(turn, |rd.scenarios|, i, base, volumes, (c: seq<LogRecord>) => From(rd.scenarios, f, x, c));
  }

  lemma IdleTurn(rd: Round, i: nat, base: Rng, volumes: seq<Phase>, b: seq<LogRecord>)
    requires |volumes| == |rd.scenarios| && i < |rd.scenarios| && !Busy(rd.scenarios[i])
    requires b in TurnOf(rd, i, base, volumes).sent
    ensures b == []
  {
    var s, t := rd.scenarios[i], TurnOf(rd, i, base, volumes);
    var k :| 0 <= k < |t.sent| && t.sent[k] == b;
    if s.concurrency == 0 {
      MainBatchFull(rd, i, t.logs, t.from);
    } else {
      var r := TeamMember(rd, i, t.logs, 0, t.from, k);
    }
  }

  /** Where no scenario from number `i` on has instances to simulate, all batches are empty. */
  lemma SendsEmpty(rd: Round, turn: TurnFunction, i: nat, base: Rng, volumes: seq<Phase>, b: seq<LogRecord>)
    requires Describes(turn, rd) && |volumes| == |rd.scenarios|
    requires b in Sends(turn, |rd.scenarios|, i, base, volumes)
    requires forall j | i <= j < |rd.scenarios| :: !Busy(rd.scenarios[j])
    ensures b == []
  {
    forall k: nat, r: Rng, v: seq<Phase>, c |
      i <= k < |rd.scenarios| && |v| == |volumes| && c in turn(k, r, v).sent
      ensures c == []
    {
      assert turn(k, r, v) == TurnOf(rd, k, r, v);
      IdleTurn(rd, k, r, v, c);
    }
    SendsAll(turn, |rd.scenarios|, i, base, volumes, (c: seq<LogRecord>) => c == []);
  }

  lemma BusyTurn(rd: Round, i: nat, base: Rng, volumes: seq<Phase>)
    requires |volumes| == |rd.scenarios| && i < |rd.scenarios|
    requires Busy(rd.scenarios[i]) && Lively(rd.scenarios[i])
    ensures var sent := TurnOf(rd, i, base, volumes).sent;
            sent != [] && sent[0] != []
  {
    var s, t := rd.scenarios[i], TurnOf(rd, i, base, volumes);
    if s.concurrency == 0 {
      MainBatchFull(rd, i, t.logs, t.from);
    } else {
      FirstWorkerFull(rd, i, t.logs, t.from.Split().0);
    }
  }

  /** Where some scenario has, some batch holds a record. */
  lemma SendsFull(rd: Round, turn: TurnFunction, i: nat, base: Rng, volumes: seq<Phase>, j: nat)
    returns (b: seq<LogRecord>)
    requires Describes(turn, rd) && |volumes| == |rd.scenarios| && i <= j < |rd.scenarios|
    requires Busy(rd.scenarios[j]) && Lively(rd.scenarios[j])
    ensures b in Sends(turn, |rd.scenarios|, i, base, volumes) && b != []
  {
    var r, v := SendsTurn(turn, |rd.scenarios|, i, base, volumes, j);
    assert turn(j, r, v) == TurnOf(rd, j, r, v);
    BusyTurn(rd, j, r, v);
    b := turn(j, r, v).sent[0];
  }

  // ----- the late batches

  /** Where the reference is when it comes to the first scenario that spawns workers. */
  datatype Place = Place(i: nat, base: Rng, volumes: seq<Phase>)

  predicate PlaceOk(rd: Round, p: Place) {
    p.i < |rd.scenarios| && |p.volumes| == |rd.scenarios|
  }

  ghost function SendsAt(rd: Round, turn: TurnFunction, p: Place): multiset<seq<LogRecord>>
    requires PlaceOk(rd, p)
  {
    Sends(turn, |rd.scenarios|, p.i, p.base, p.volumes)
  }

  /** The late batches are those sent from the first scenario on that spawns workers. */
  lemma {:induction false} LateIsSent(
      rd: Round, turn: TurnFunction, i: nat, sb: nat, base: Rng, volumes: seq<Phase>) returns (p: Place)
    requires Describes(turn, rd) && |volumes| == |rd.scenarios|
    requires i <= |rd.scenarios| && LateFrom(rd.scenarios, i) > 0
    ensures PlaceOk(rd, p) && i <= p.i && Spawns(rd.scenarios[p.i])
    ensures forall j | i <= j < p.i :: !Spawns(rd.scenarios[j])
    ensures LateOf(rd, Rest(rd, AtScenario(i, sb), base, volumes)) == SendsAt(rd, turn, p)
    decreases |rd.scenarios| - i
  {
    var sb' := ReferenceTurn(rd, turn, i, sb, base, volumes);
    if Spawns(rd.scenarios[i]) {
      p := Place(i, base, volumes);
      ReferenceSends(rd, turn, i, sb, base, volumes);
    } else {
      var t := turn(i, base, volumes);
      p := LateIsSent(rd, turn, i + 1, sb', t.base, t.volumes);
    }
  }

  lemma MateFrom(rd: Round, i: nat, logs: int, base: Rng, b: seq<LogRecord>)
    requires i < |rd.scenarios| && rd.scenarios[i].concurrency > 0
    requires b in Team(rd, i, logs, 1, base)
    ensures var s := rd.scenarios[i];
            From(rd.scenarios, i, s.scale / s.concurrency, b)
  {
    var mates := Team(rd, i, logs, 1, base);
    var k :| 0 <= k < |mates| && mates[k] == b;
    var r := TeamMember(rd, i, logs, 1, base, k);
    LaterWorkerFrom(rd, i, logs, k + 1, r);
  }

  /** The batches of the first worker's mates and of later scenarios. */
  ghost function Others(rd: Round, turn: TurnFunction, p: Place): multiset<seq<LogRecord>>
    requires PlaceOk(rd, p) && Spawns(rd.scenarios[p.i])
  {
    var t := TurnOf(rd, p.i, p.base, p.volumes);
    multiset(Team(rd, p.i, t.logs, 1, t.from.Split().1)) + Sends(turn, |rd.scenarios|, p.i + 1, t.base, t.volumes)
  }

  function First(rd: Round, p: Place): seq<LogRecord>
    requires PlaceOk(rd, p) && Spawns(rd.scenarios[p.i])
  {
    var t := TurnOf(rd, p.i, p.base, p.volumes);
    WorkerBatchOf(rd, p.i, t.logs, 0, t.from.Split().0)
  }

  lemma FirstAndOthers(rd: Round, turn: TurnFunction, p: Place)
    requires Describes(turn, rd) && PlaceOk(rd, p) && Spawns(rd.scenarios[p.i])
    ensures SendsAt(rd, turn, p) == multiset{First(rd, p)} + Others(rd, turn, p)
  {
    var t := TurnOf(rd, p.i, p.base, p.volumes);
    assert turn(p.i, p.base, p.volumes) == t;
    BagCons(First(rd, p), Team(rd, p.i, t.logs, 1, t.from.Split().1));
  }

  lemma OtherFrom(rd: Round, turn: TurnFunction, p: Place, b: seq<LogRecord>)
    requires Describes(turn, rd) && PlaceOk(rd, p) && Spawns(rd.scenarios[p.i]) && b in Others(rd, turn, p)
    ensures var s := rd.scenarios[p.i];
            From(rd.scenarios, p.i, s.scale / s.concurrency, b)
  {
    var s, t := rd.scenarios[p.i], TurnOf(rd, p.i, p.base, p.volumes);
    if b in Team(rd, p.i, t.logs, 1, t.from.Split().1) {
      MateFrom(rd, p.i, t.logs, t.from.Split().1, b);
    } else {
      SendsFrom(rd, turn, p.i + 1, t.base, t.volumes, p.i, s.scale / s.concurrency, b);
    }
  }

  lemma SomeOther<T>(x: T, others: multiset<T>)
    requires |multiset{x} + others| > 1
    ensures exists b :: b in others
  {
    assert |others| > 0;
  }

  lemma FirstDiffers(rd: Round, turn: TurnFunction, p: Place, b: seq<LogRecord>)
    requires Describes(turn, rd) && PlaceOk(rd, p) && Spawns(rd.scenarios[p.i]) && b in Others(rd, turn, p)
    requires Distinguishable(rd.scenarios) && Lively(rd.scenarios[p.i]) && Busy(rd.scenarios[p.i])
    ensures First(rd, p) != b
  {
    var s, t := rd.scenarios[p.i], TurnOf(rd, p.i, p.base, p.volumes);
    FirstWorkerFull(rd, p.i, t.logs, t.from.Split().0);
    FirstWorkerBefore(rd, p.i, t.logs, t.from.Split().0);
    OtherFrom(rd, turn, p, b);
    BeforeIsNotFrom(rd.scenarios, p.i, s.scale / s.concurrency, First(rd, p), b);
  }

  lemma FirstEmpty(rd: Round, p: Place)
    requires PlaceOk(rd, p) && Spawns(rd.scenarios[p.i]) && !Busy(rd.scenarios[p.i])
    ensures First(rd, p) == []
  {
  }

  /** Two late batches differ, if there are two and a scenario has instances to simulate by then. */
  lemma LateDiffer(rd: Round, turn: TurnFunction, p: Place)
    requires Describes(turn, rd) && PlaceOk(rd, p) && Spawns(rd.scenarios[p.i]) && |SendsAt(rd, turn, p)| > 1
    requires Distinguishable(rd.scenarios) && forall j | 0 <= j < |rd.scenarios| :: Lively(rd.scenarios[j])
    requires exists j :: p.i <= j < |rd.scenarios| && Busy(rd.scenarios[j])
    ensures !Alike(SendsAt(rd, turn, p))
  {
    FirstAndOthers(rd, turn, p);
    if Busy(rd.scenarios[p.i]) {
      SomeOther(First(rd, p), Others(rd, turn, p));
      var b :| b in Others(rd, turn, p);
      FirstDiffers(rd, turn, p, b);
      TwoIn(SendsAt(rd, turn, p), First(rd, p), b);
    } else {
      var j :| p.i <= j < |rd.scenarios| && Busy(rd.scenarios[j]);
      var b := SendsFull(rd, turn, p.i, p.base, p.volumes, j);
      FirstEmpty(rd, p);
      TwoIn(SendsAt(rd, turn, p), First(rd, p), b);
    }
  }

  lemma TwoIn<T>(m: multiset<T>, a: T, b: T)
    requires a in m && b in m && a != b
    ensures !Alike(m)
  {
  }

  lemma LateAlike(rd: Round, turn: TurnFunction, p: Place)
    requires Describes(turn, rd) && PlaceOk(rd, p) && forall j | p.i <= j < |rd.scenarios| :: !Busy(rd.scenarios[j])
    ensures Alike(SendsAt(rd, turn, p))
  {
    forall b | b in SendsAt(rd, turn, p)
      ensures b == []
    {
      SendsEmpty(rd, turn, p.i, p.base, p.volumes, b);
    }
  }

  lemma LateIdleAt(scns: seq<Scenario>, f: nat)
    requires f < |scns| && Spawns(scns[f]) && forall j | 0 <= j < f :: !Spawns(scns[j])
    ensures LateIdle(scns) <==> forall j | f <= j < |scns| :: !Busy(scns[j])
  {
  }

  /** The late batches of a round are all alike exactly when there is at most one or none holds a record. */
  lemma AlikeIffOrderly(rd: Round, st: Store)
    requires Room(rd) && StoreOk(rd, st) && Distinguishable(rd.scenarios)
    requires forall j | 0 <= j < |rd.scenarios| :: Lively(rd.scenarios[j])
    ensures Alike(Late(rd, st)) <==> Orderly(rd.scenarios)
  {
    LateCount(rd, st);
    if LateFrom(rd.scenarios, 0) <= 1 {
      OneIsAlike(Late(rd, st));
    } else {
      var turn := TurnsOf(rd);
      TurnsDescribe(rd);
      var p := LateIsSent(rd, turn, 0, 1, st.base, st.volumes);
      LateIdleAt(rd.scenarios, p.i);
      if LateIdle(rd.scenarios) {
        LateAlike(rd, turn, p);
      } else {
        LateDiffer(rd, turn, p);
      }
    }
  }

  // ----- the theorems

  /** The order of a round's batches is the same on all schedules exactly when the list of scenarios is
      orderly. */
  lemma OrderFixedIffOrderly(rd: Round, st: Store)
    requires Room(rd) && StoreOk(rd, st) && Distinguishable(rd.scenarios)
    requires forall j | 0 <= j < |rd.scenarios| :: Lively(rd.scenarios[j])
    ensures OrderFixed(rd, st) <==> Orderly(rd.scenarios)
  {
    OrderFixedIff(rd, st);
    AlikeIffOrderly(rd, st);
  }

  /** Any two runs leave the same after every round that both complete, batches in order included. */
  ghost predicate OutputIdentical(cfg: RunCfg)
    requires cfg.Valid()
  {
    forall run :: AllIdentical(cfg, RunExec(cfg, Boot(cfg), run).past)
  }

  lemma RoundsAlikeIff(cfg: RunCfg, past: seq<Store>, k: nat)
    requires History(cfg, past) && k + 1 < |past| && Distinguishable(cfg.scenarios)
    requires forall j | 0 <= j < |cfg.scenarios| :: Lively(cfg.scenarios[j])
    ensures Alike(Late(cfg.RoundAt(k), past[k])) <==> Orderly(cfg.scenarios)
  {
    ReceiverHasRoom(cfg.RoundAt(k));
    AlikeIffOrderly(cfg.RoundAt(k), past[k]);
  }

  lemma AllAlikeIff(cfg: RunCfg, past: seq<Store>)
    requires History(cfg, past) && Distinguishable(cfg.scenarios)
    requires forall j | 0 <= j < |cfg.scenarios| :: Lively(cfg.scenarios[j])
    ensures AllAlike(cfg, past) <==> |past| == 1 || Orderly(cfg.scenarios)
  {
    forall k | 0 <= k < |past| - 1
      ensures Alike(Late(cfg.RoundAt(k), past[k])) <==> Orderly(cfg.scenarios)
    {
      RoundsAlikeIff(cfg, past, k);
    }
    if |past| > 1 && AllAlike(cfg, past) {
      AlikeAt(cfg, past, 0);
    }
  }

  /** All runs leave what a given one that was not cancelled leaves exactly when it completed no round or the
      list of scenarios is orderly. */
  lemma RunIdenticalIffOrderly(cfg: RunCfg, run: seq<RunChoice>)
    requires cfg.Valid() && !RunExec(cfg, Boot(cfg), run).cancelled && Distinguishable(cfg.scenarios)
    requires forall j | 0 <= j < |cfg.scenarios| :: Lively(cfg.scenarios[j])
    ensures var past := RunExec(cfg, Boot(cfg), run).past;
            AllIdentical(cfg, past) <==> |past| == 1 || Orderly(cfg.scenarios)
  {
    RunsIdenticalIff(cfg, run);
    AllAlikeIff(cfg, RunExec(cfg, Boot(cfg), run).past);
  }

  /** Same seed and same configuration give identical output, to the order of the batches, exactly when the
      list of scenarios is orderly or there is no interval to simulate. */
  lemma OutputIdenticalIff(cfg: RunCfg)
    requires cfg.Valid() && Distinguishable(cfg.scenarios)
    requires forall j | 0 <= j < |cfg.scenarios| :: Lively(cfg.scenarios[j])
    ensures OutputIdentical(cfg) <==> Orderly(cfg.scenarios) || cfg.start >= cfg.end
  {
    if Orderly(cfg.scenarios) || cfg.start >= cfg.end {
      forall run
        ensures AllIdentical(cfg, RunExec(cfg, Boot(cfg), run).past)
      {
        OrderlyIsIdentical(cfg, run);
      }
    } else {
      var run := CompletedRun(cfg);
      RunIdenticalIffOrderly(cfg, run);
    }
  }

  lemma CompletedRun(cfg: RunCfg) returns (run: seq<RunChoice>)
    requires cfg.Valid() && cfg.start < cfg.end
    ensures var r := RunExec(cfg, Boot(cfg), run);
            !r.cancelled && |r.past| > 1
  {
    RunExecOne(cfg, Boot(cfg), Start);
    var more := Finish(cfg, RunExec(cfg, Boot(cfg), [Start]));
    run := [Start] + more;
    RunExecAppend(cfg, Boot(cfg), [Start], more);
    ClosedRunIsComplete(cfg, run);
    SomeRounds(cfg.start, cfg.end, cfg.interval);
  }

  lemma SomeRounds(start: int, end: int, interval: int)
    requires interval > 0 && start < end
    ensures RoundsBetween(start, end, interval) > 0
  {
    Partition.AtLeast(end - start + interval - 1, interval, 1);
  }

  lemma OrderlyIsIdentical(cfg: RunCfg, run: seq<RunChoice>)
    requires cfg.Valid() && Distinguishable(cfg.scenarios)
    requires forall j | 0 <= j < |cfg.scenarios| :: Lively(cfg.scenarios[j])
    requires Orderly(cfg.scenarios) || cfg.start >= cfg.end
    ensures AllIdentical(cfg, RunExec(cfg, Boot(cfg), run).past)
  {
    var past := RunExec(cfg, Boot(cfg), run).past;
    BootInv(cfg);
    RunKeeps(cfg, Boot(cfg), run);
    if |past| > 1 {
      RoundBeforeTheEnd(cfg, past);
    }
    AllAlikeIff(cfg, past);
    forall other, k: nat | k < |past| && k < |RunExec(cfg, Boot(cfg), other).past|
      ensures RunExec(cfg, Boot(cfg), other).past[k] == past[k]
    {
      RunKeeps(cfg, Boot(cfg), other);
      HistoriesIdentical(cfg, past, RunExec(cfg, Boot(cfg), other).past, k);
    }
  }
}
