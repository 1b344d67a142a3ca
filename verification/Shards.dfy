/** Which statistics shard each thread of a round writes to. */
module Shards {
  import opened Rand
  import opened Volume
  import opened Rounds
  import opened Determinism

  // ----- what the receiver sets up

  function AllConcurrency(scns: seq<Scenario>): nat {
    if scns == [] then 0 else AllConcurrency(scns[..|scns| - 1]) + scns[|scns| - 1].concurrency
  }

  /** The shards that track field cardinality: 0, and one per concurrent scenario. */
  function Tracked(scns: seq<Scenario>): seq<nat> {
    if scns == [] then [0]
    else
      var front := scns[..|scns| - 1];
      Tracked(front) + if scns[|scns| - 1].concurrency > 0 then [1 + AllConcurrency(front)] else []
  }

  method SizeShards(scns: seq<Scenario>) returns (numShards: nat, cardinalityShards: seq<nat>)
    ensures numShards == 1 + AllConcurrency(scns)
    ensures cardinalityShards == Tracked(scns)
  {
    var total := 0;
    cardinalityShards := [0];
    for i := 0 to |scns|
      invariant total == AllConcurrency(scns[..i])
      invariant cardinalityShards == Tracked(scns[..i])
    {
      assert scns[..i + 1][..i] == scns[..i];
      if scns[i].concurrency > 0 {
        cardinalityShards := cardinalityShards + [1 + total];
        total := total + scns[i].concurrency;
      }
    }
    assert scns[..|scns|] == scns;
    numShards := 1 + total;
  }

  // ----- what a round uses

  /** The shard of the first worker of scenario `i`: idle scenarios do not move the base. */
  function Base(scns: seq<Scenario>, i: nat): nat
    requires i <= |scns|
  {
    if i == 0 then 1
    else Base(scns, i - 1) + if scns[i - 1].Active() then scns[i - 1].concurrency else 0
  }

  lemma {:induction false} BaseMonotone(scns: seq<Scenario>, i: nat, j: nat)
    requires i <= j <= |scns|
    ensures Base(scns, i) <= Base(scns, j)
    decreases j
  {
    if i < j {
      BaseMonotone(scns, i, j - 1);
    }
  }

  lemma {:induction false} BaseWithinShards(scns: seq<Scenario>, i: nat)
    requires i <= |scns|
    ensures Base(scns, i) <= 1 + AllConcurrency(scns[..i])
  {
    if i > 0 {
      BaseWithinShards(scns, i - 1);
      assert scns[..i][..i - 1] == scns[..i - 1];
    }
  }

  /** There is a shard for every worker that a round can spawn. */
  predicate Room(rd: Round) {
    Base(rd.scenarios, |rd.scenarios|) <= rd.numShards
  }

  lemma ReceiverHasRoom(rd: Round)
    requires rd.numShards == 1 + AllConcurrency(rd.scenarios)
    ensures Room(rd)
  {
    BaseWithinShards(rd.scenarios, |rd.scenarios|);
    assert rd.scenarios[..|rd.scenarios|] == rd.scenarios;
  }

  function Lowest(pc: MainPc): nat
    requires !pc.Returned?
  {
    if pc.Spawning? then pc.shardBase + pc.wi else pc.shardBase
  }

  ghost predicate PcBased(rd: Round, pc: MainPc) {
    && PcOk(rd, pc)
    && (!pc.Returned? ==> pc.shardBase == Base(rd.scenarios, pc.i))
    && (pc.Spawning? ==> rd.scenarios[pc.i].Active())
    && (pc.Emitting? || pc.Adding? || pc.Sending? ==> rd.scenarios[pc.i].concurrency == 0)
  }

  /** A worker that has done nothing yet, in the part of the shards that belongs to its scenario. */
  ghost predicate FreshWorker(rd: Round, w: Worker) {
    && WorkerOk(rd, w) && w.pc == Working && w.batch == []
    && Base(rd.scenarios, w.scn) <= w.shard < Base(rd.scenarios, w.scn + 1)
  }

  ghost predicate Increasing(ws: seq<Worker>) {
    forall i, j | 0 <= i < j < |ws| :: ws[i].shard < ws[j].shard
  }

  ghost predicate InOrder(rd: Round, lo: nat, ws: seq<Worker>) {
    && (forall k | 0 <= k < |ws| :: FreshWorker(rd, ws[k]) && lo <= ws[k].shard)
    && Increasing(ws)
  }

  lemma PrependWorker(rd: Round, lo: nat, w: Worker, ws: seq<Worker>)
    requires InOrder(rd, lo + 1, ws) && FreshWorker(rd, w) && w.shard == lo
    ensures InOrder(rd, lo, [w] + ws)
  {
  }

  lemma RestSpawn(rd: Round, i: nat, logs: int, wi: nat, base: Rng, volumes: seq<Phase>)
    requires Room(rd) && |volumes| == |rd.scenarios|
    requires i < |rd.scenarios| && rd.scenarios[i].Active() && wi < rd.scenarios[i].concurrency
    requires var sb := Base(rd.scenarios, i);
             InOrder(rd, sb + wi + 1, Rest(rd, Spawning(i, sb, logs, wi + 1), base.Split().1, volumes).workers)
    ensures var sb := Base(rd.scenarios, i);
            InOrder(rd, sb + wi, Rest(rd, Spawning(i, sb, logs, wi), base, volumes).workers)
  {
    var sb := Base(rd.scenarios, i);
    var (r, next) := base.Split();
    FreshSpawn(rd, i, logs, wi, r);
    PrependWorker(rd, sb + wi, NewWorker(rd, i, sb, logs, wi, r),
                  Rest(rd, Spawning(i, sb, logs, wi + 1), next, volumes).workers);
  }

  lemma {:induction false} RestWorkers(rd: Round, pc: MainPc, base: Rng, volumes: seq<Phase>)
    requires Room(rd) && PcBased(rd, pc) && |volumes| == |rd.scenarios| && !pc.Returned?
    ensures InOrder(rd, Lowest(pc), Rest(rd, pc, base, volumes).workers)
    decreases |rd.scenarios| - pc.i, Rank(pc), if pc.Spawning? then rd.scenarios[pc.i].concurrency - pc.wi else 0
  {
    match pc
    case AtScenario(i, sb) =>
      if i < |rd.scenarios| {
        RestWorkersAt(rd, i, base, volumes);
      }
    case Emitting(i, sb, jobs, batch) =>
      var (recs, r) := RunJobs(rd.scenarios[i].emit, rd.time, jobs, base);
      RestWorkers(rd, Adding(i, sb, batch + recs, 0), r, volumes);
    case Adding(i, sb, batch, _) => RestWorkers(rd, Sending(i, sb, batch), base, volumes);
    case Sending(i, sb, batch) => RestWorkers(rd, AtScenario(i + 1, sb), base, volumes);
    case Spawning(i, sb, logs, wi) => RestWorkersSpawning(rd, i, logs, wi, base, volumes);
  }

  lemma {:induction false} RestWorkersAt(rd: Round, i: nat, base: Rng, volumes: seq<Phase>)
    requires Room(rd) && i < |rd.scenarios| && |volumes| == |rd.scenarios|
    ensures InOrder(rd, Base(rd.scenarios, i), Rest(rd, AtScenario(i, Base(rd.scenarios, i)), base, volumes).workers)
    decreases |rd.scenarios| - i, 4, rd.scenarios[i].concurrency + 1
  {
    var scn, sb := rd.scenarios[i], Base(rd.scenarios, i);
    if !scn.Active() {
      RestWorkers(rd, AtScenario(i + 1, sb), base, volumes);
    } else {
      var (ph, logs, r) := scn.plan(rd.time, volumes[i], base);
      if scn.concurrency == 0 {
        RestWorkers(rd, Emitting(i, sb, SequentialJobs(scn, logs, scn.scale), []), r, volumes[i := ph]);
      } else {
        RestWorkersSpawning(rd, i, logs, 0, r, volumes[i := ph]);
      }
    }
  }

  lemma {:induction false} RestWorkersSpawning(rd: Round, i: nat, logs: int, wi: nat, base: Rng, volumes: seq<Phase>)
    requires Room(rd) && |volumes| == |rd.scenarios|
    requires i < |rd.scenarios| && rd.scenarios[i].Active()
    requires rd.scenarios[i].concurrency > 0 && wi <= rd.scenarios[i].concurrency
    ensures var sb := Base(rd.scenarios, i);
            InOrder(rd, sb + wi, Rest(rd, Spawning(i, sb, logs, wi), base, volumes).workers)
    decreases |rd.scenarios| - i, 4, rd.scenarios[i].concurrency - wi, 0
  {
    if wi >= rd.scenarios[i].concurrency {
      RestWorkers(rd, AtScenario(i + 1, Base(rd.scenarios, i) + wi), base, volumes);
    } else {
      RestWorkersSpawning(rd, i, logs, wi + 1, base.Split().1, volumes);
      RestSpawn(rd, i, logs, wi, base, volumes);
    }
  }

  lemma FreshSpawn(rd: Round, i: nat, logs: int, wi: nat, r: Rng)
    requires Room(rd) && i < |rd.scenarios| && rd.scenarios[i].Active() && wi < rd.scenarios[i].concurrency
    ensures var w := NewWorker(rd, i, Base(rd.scenarios, i), logs, wi, r);
            FreshWorker(rd, w) && w.shard == Base(rd.scenarios, i) + wi
  {
    SpawnedShard(rd, i, wi);
  }

  /** The modulus by which a shard is looked up never wraps. */
  lemma SpawnedShard(rd: Round, i: nat, wi: nat)
    requires Room(rd) && i < |rd.scenarios| && rd.scenarios[i].Active() && wi < rd.scenarios[i].concurrency
    ensures (Base(rd.scenarios, i) + wi) % rd.numShards == Base(rd.scenarios, i) + wi < Base(rd.scenarios, i + 1)
  {
    BaseMonotone(rd.scenarios, i + 1, |rd.scenarios|);
    SmallModulus(Base(rd.scenarios, i) + wi, rd.numShards);
  }

  lemma SmallModulus(a: nat, n: nat)
    requires a < n
    ensures a % n == a
  {
  }

  /** The workers of a round own pairwise distinct shards, none of them the main thread's. */
  lemma WorkersOwnTheirShards(rd: Round, st: Store)
    requires Room(rd) && StoreOk(rd, st)
    ensures Invariant(rd, Begin(rd, st))
    ensures forall k | 0 <= k < |AllWorkers(rd, Begin(rd, st))| :: FreshWorker(rd, AllWorkers(rd, Begin(rd, st))[k])
  {
    RestWorkers(rd, AtScenario(0, 1), st.base, st.volumes);
  }

  // ----- which of them track field cardinality

  /** The shards of the first workers of the scenarios that emit, in order. */
  function FirstWorkers(scns: seq<Scenario>): seq<nat> {
    if scns == [] then []
    else
      var front, last := scns[..|scns| - 1], scns[|scns| - 1];
      FirstWorkers(front) + if last.Active() && last.concurrency > 0 then [Base(front, |front|)] else []
  }

  predicate ConcurrentAllActive(scns: seq<Scenario>) {
    forall i | 0 <= i < |scns| && scns[i].concurrency > 0 :: scns[i].Active()
  }

  lemma {:induction false} BasePrefix(scns: seq<Scenario>, n: nat, i: nat)
    requires i <= n <= |scns|
    ensures Base(scns[..n], i) == Base(scns, i)
  {
    if i > 0 {
      BasePrefix(scns, n, i - 1);
    }
  }

  lemma {:induction false} ActiveLayoutsCoincide(scns: seq<Scenario>)
    requires ConcurrentAllActive(scns)
    ensures Base(scns, |scns|) == 1 + AllConcurrency(scns)
    ensures Tracked(scns) == [0] + FirstWorkers(scns)
  {
    if scns != [] {
      var n := |scns| - 1;
      ActiveLayoutsCoincide(scns[..n]);
      BasePrefix(scns, n, n);
    }
  }

  lemma {:induction false} FewerFirstWorkers(scns: seq<Scenario>)
    ensures |FirstWorkers(scns)| < |Tracked(scns)|
    ensures !ConcurrentAllActive(scns) ==> |FirstWorkers(scns)| + 1 < |Tracked(scns)|
  {
    if scns != [] {
      var n := |scns| - 1;
      FewerFirstWorkers(scns[..n]);
      if ConcurrentAllActive(scns[..n]) && (scns[n].concurrency > 0 ==> scns[n].Active()) {
        AllActiveSnoc(scns);
      }
    }
  }

  lemma AllActiveSnoc(scns: seq<Scenario>)
    requires scns != [] && ConcurrentAllActive(scns[..|scns| - 1])
    requires scns[|scns| - 1].concurrency > 0 ==> scns[|scns| - 1].Active()
    ensures ConcurrentAllActive(scns)
  {
    forall i | 0 <= i < |scns| && scns[i].concurrency > 0
      ensures scns[i].Active()
    {
      assert i < |scns| - 1 ==> scns[..|scns| - 1][i] == scns[i];
    }
  }

  lemma {:induction false} TrackedBelow(scns: seq<Scenario>, k: nat)
    ensures k in Tracked(scns) ==> k <= AllConcurrency(scns)
  {
    if scns != [] {
      TrackedBelow(scns[..|scns| - 1], k);
    }
  }

  /** The shard of the second worker of a scenario is not tracked. */
  lemma {:induction false} SecondWorkerUntracked(scns: seq<Scenario>, i: nat)
    requires i < |scns| && scns[i].concurrency > 1
    ensures var k := 2 + AllConcurrency(scns[..i]);
            k <= AllConcurrency(scns) && k !in Tracked(scns)
  {
    var n, k := |scns| - 1, 2 + AllConcurrency(scns[..i]);
    TrackedBelow(scns[..n], k);
    if i < n {
      SecondWorkerUntracked(scns[..n], i);
      assert scns[..n][..i] == scns[..i];
    }
  }

  lemma {:induction false} LoneWorkersTracked(scns: seq<Scenario>, k: nat)
    requires forall i | 0 <= i < |scns| :: scns[i].concurrency <= 1
    requires k <= AllConcurrency(scns)
    ensures k in Tracked(scns)
  {
    if scns != [] && k <= AllConcurrency(scns[..|scns| - 1]) {
      LoneWorkersTracked(scns[..|scns| - 1], k);
    }
  }

  /** Every shard tracks field cardinality exactly when no scenario has more than one worker. */
  lemma AllTrackedIff(scns: seq<Scenario>)
    ensures (forall k: nat | k < 1 + AllConcurrency(scns) :: k in Tracked(scns))
       <==> forall i | 0 <= i < |scns| :: scns[i].concurrency <= 1
  {
    if forall i | 0 <= i < |scns| :: scns[i].concurrency <= 1 {
      forall k: nat | k < 1 + AllConcurrency(scns)
        ensures k in Tracked(scns)
      {
        LoneWorkersTracked(scns, k);
      }
    } else {
      var i: nat :| i < |scns| && scns[i].concurrency > 1;
      SecondWorkerUntracked(scns, i);
    }
  }

  /** The tracked shards are shard 0 and the shard of each emitting scenario's first worker exactly when
      every concurrent scenario emits: an idle one takes a tracked shard but moves no base. */
  lemma TrackedShardsAreFirstWorkers(scns: seq<Scenario>)
    ensures Tracked(scns) == [0] + FirstWorkers(scns) <==> ConcurrentAllActive(scns)
  {
    if ConcurrentAllActive(scns) {
      ActiveLayoutsCoincide(scns);
    } else {
      FewerFirstWorkers(scns);
    }
  }
}
