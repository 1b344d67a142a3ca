/** A round replayed in closed form: where the base generator stands when the main thread comes to each
scenario, the seed that every worker gets, and what every schedule has therefore put into each shard.
Nothing here is stated through `Split` or the steps of the main thread. */
module Replay {
  import opened Rand
  import opened Records
  import opened Volume
  import opened Rounds
  import opened Determinism
  import opened Shards
  import opened RoundTheorems

  /** The generator once `n` seeds have been drawn from it. */
  function AfterSeeds(r: Rng, n: nat): Rng {
    r.(calls := r.calls + seq(n, _ => CallInt63))
  }

  /** What draw number `wi` after `r` answers. */
  function Seed(r: Rng, wi: nat): nat {
    r.source.ints(r.seed, r.calls + seq(wi, _ => CallInt63)) % 0x8000_0000_0000_0000
  }

  /** A new generator, of which nothing has been requested. */
  function SeededWith(source: Source, seed: nat): Rng {
    Rng(source, seed, [])
  }

  /** Where a round stands between two scenarios. */
  datatype Position = Position(base: Rng, volumes: seq<Phase>)

  /** The position behind scenario `i`: a sequential one draws its records from the base generator, a
      concurrent one a seed for every worker. */
  function Passed(rd: Round, i: nat, at: Position): (p: Position)
    requires i < |rd.scenarios| && |at.volumes| == |rd.scenarios|
    ensures |p.volumes| == |at.volumes|
  {
    var s := rd.scenarios[i];
    if s.logsPerInterval == 0 then at
    else
      var (ph, logs, r) := s.plan(rd.time, at.volumes[i], at.base);
      Position(
        if s.concurrency == 0 then RunJobs(s.emit, rd.time, SequentialJobs(s, logs, s.scale), r).1
        else AfterSeeds(r, s.concurrency),
        at.volumes[i := ph])
  }

  /** The position before scenario `i` of a round that begins with the store `st`. */
  function PositionAt(rd: Round, st: Store, i: nat): (p: Position)
    requires StoreOk(rd, st) && i <= |rd.scenarios|
    ensures |p.volumes| == |rd.scenarios|
  {
    if i == 0 then Position(st.base, st.volumes) else Passed(rd, i - 1, PositionAt(rd, st, i - 1))
  }

  /** The worker `wi` that scenario `i` spawns, its plan having left the generator at `r`. */
  function SeededWorker(rd: Round, i: nat, logs: int, r: Rng, wi: nat): Worker
    requires i < |rd.scenarios| && rd.scenarios[i].concurrency > 0
  {
    NewWorker(rd, i, Base(rd.scenarios, i), logs, wi, SeededWith(r.source, Seed(r, wi)))
  }

  /** The workers of scenario `i`. */
  function Crew(rd: Round, i: nat, at: Position): seq<Worker>
    requires i < |rd.scenarios| && |at.volumes| == |rd.scenarios|
  {
    var s := rd.scenarios[i];
    if s.logsPerInterval == 0 || s.concurrency == 0 then []
    else
      var (_, logs, r) := s.plan(rd.time, at.volumes[i], at.base);
      seq(s.concurrency, wi requires 0 <= wi => SeededWorker(rd, i, logs, r, wi))
  }

  /** The records that the main thread itself emits for scenario `i`. */
  function Own(rd: Round, i: nat, at: Position): seq<LogRecord>
    requires i < |rd.scenarios| && |at.volumes| == |rd.scenarios|
  {
    var s := rd.scenarios[i];
    if s.logsPerInterval == 0 || s.concurrency > 0 then []
    else
      var (_, logs, r) := s.plan(rd.time, at.volumes[i], at.base);
      RunJobs(s.emit, rd.time, SequentialJobs(s, logs, s.scale), r).0
  }

  function Crews(rd: Round, st: Store, n: nat): seq<Worker>
    requires StoreOk(rd, st) && n <= |rd.scenarios|
  {
    if n == 0 then [] else Crews(rd, st, n - 1) + Crew(rd, n - 1, PositionAt(rd, st, n - 1))
  }

  function Owns(rd: Round, st: Store, n: nat): seq<LogRecord>
    requires StoreOk(rd, st) && n <= |rd.scenarios|
  {
    if n == 0 then [] else Owns(rd, st, n - 1) + Own(rd, n - 1, PositionAt(rd, st, n - 1))
  }

  // ----- the reference is the replay

  lemma SeedAfter(r: Rng, wi: nat)
    ensures AfterSeeds(r, wi).Split() == (SeededWith(r.source, Seed(r, wi)), AfterSeeds(r, wi + 1))
  {
    assert r.calls + seq(wi, _ => CallInt63) + [CallInt63] == r.calls + seq(wi + 1, _ => CallInt63);
  }

  /** One worker of the reference. */
  lemma SpawnOne(rd: Round, i: nat, sb: nat, logs: int, wi: nat, base: Rng, volumes: seq<Phase>)
    requires |volumes| == |rd.scenarios| && i < |rd.scenarios| && wi < rd.scenarios[i].concurrency
    ensures var (r, next) := base.Split();
            var y := Rest(rd, Spawning(i, sb, logs, wi), base, volumes);
            var y' := Rest(rd, Spawning(i, sb, logs, wi + 1), next, volumes);
            && y.base == y'.base && y.volumes == y'.volumes && y.own == y'.own
            && y.workers == [NewWorker(rd, i, sb, logs, wi, r)] + y'.workers
  {
  }

  lemma SpawnNone(rd: Round, i: nat, sb: nat, logs: int, base: Rng, volumes: seq<Phase>)
    requires |volumes| == |rd.scenarios| && i < |rd.scenarios| && rd.scenarios[i].concurrency > 0
    ensures var conc := rd.scenarios[i].concurrency;
            var y := Rest(rd, Spawning(i, sb, logs, conc), base, volumes);
            var y' := Rest(rd, AtScenario(i + 1, sb + conc), base, volumes);
            y.base == y'.base && y.volumes == y'.volumes && y.own == y'.own && y.workers == y'.workers
  {
  }

  function CrewFrom(rd: Round, i: nat, logs: int, r: Rng, wi: nat): seq<Worker>
    requires i < |rd.scenarios| && wi <= rd.scenarios[i].concurrency && rd.scenarios[i].concurrency > 0
  {
    seq(rd.scenarios[i].concurrency - wi, k requires 0 <= k => SeededWorker(rd, i, logs, r, wi + k))
  }

  lemma CrewCons(rd: Round, i: nat, logs: int, r: Rng, wi: nat)
    requires i < |rd.scenarios| && wi < rd.scenarios[i].concurrency
    ensures CrewFrom(rd, i, logs, r, wi) == [SeededWorker(rd, i, logs, r, wi)] + CrewFrom(rd, i, logs, r, wi + 1)
  {
  }

  lemma Associate<T>(a: seq<T>, b: seq<T>, c: seq<T>)
    ensures a + (b + c) == (a + b) + c
  {
  }

  /** The workers from `wi` on, the base generator having been asked for `wi` seeds. */
  lemma {:induction false} CrewSpawns(rd: Round, i: nat, logs: int, r: Rng, wi: nat, volumes: seq<Phase>, y': Yield)
    requires |volumes| == |rd.scenarios| && i < |rd.scenarios| && wi <= rd.scenarios[i].concurrency
    requires rd.scenarios[i].concurrency > 0
    requires var conc, sb := rd.scenarios[i].concurrency, Base(rd.scenarios, i);
             y' == Rest(rd, AtScenario(i + 1, sb + conc), AfterSeeds(r, conc), volumes)
    ensures var y := Rest(rd, Spawning(i, Base(rd.scenarios, i), logs, wi), AfterSeeds(r, wi), volumes);
            && y.base == y'.base && y.volumes == y'.volumes && y.own == y'.own
            && y.workers == CrewFrom(rd, i, logs, r, wi) + y'.workers
    decreases rd.scenarios[i].concurrency - wi
  {
    var sb := Base(rd.scenarios, i);
    if wi < rd.scenarios[i].concurrency {
      CrewSpawns(rd, i, logs, r, wi + 1, volumes, y');
      SeedAfter(r, wi);
      SpawnOne(rd, i, sb, logs, wi, AfterSeeds(r, wi), volumes);
      CrewCons(rd, i, logs, r, wi);
      Associate([SeededWorker(rd, i, logs, r, wi)], CrewFrom(rd, i, logs, r, wi + 1), y'.workers);
    } else {
      SpawnNone(rd, i, sb, logs, AfterSeeds(r, wi), volumes);
    }
  }

  lemma MainEmits(rd: Round, i: nat, sb: nat, logs: int, base: Rng, volumes: seq<Phase>)
    requires |volumes| == |rd.scenarios| && i < |rd.scenarios|
    ensures var s := rd.scenarios[i];
            var (recs, next) := RunJobs(s.emit, rd.time, SequentialJobs(s, logs, s.scale), base);
            var y := Rest(rd, Emitting(i, sb, SequentialJobs(s, logs, s.scale), []), base, volumes);
            var y' := Rest(rd, AtScenario(i + 1, sb), next, volumes);
            y.base == y'.base && y.volumes == y'.volumes && y.own == recs + y'.own && y.workers == y'.workers
  {
    var s := rd.scenarios[i];
    var (recs, next) := RunJobs(s.emit, rd.time, SequentialJobs(s, logs, s.scale), base);
    var y2 := Rest(rd, Sending(i, sb, [] + recs), next, volumes);
    var y1 := Rest(rd, Adding(i, sb, [] + recs, 0), next, volumes);
    assert y1.own == y2.own && y1.workers == y2.workers && y1.base == y2.base && y1.volumes == y2.volumes;
  }

  /** What the reference `y` from one point on has in common with the one, `y'`, from a later point on, if the
      main thread emits `own` and spawns `crew` between the two. */
  ghost predicate Leads(y: Yield, y': Yield, own: seq<LogRecord>, crew: seq<Worker>) {
    y.base == y'.base && y.volumes == y'.volumes && y.own == own + y'.own && y.workers == crew + y'.workers
  }

  lemma LeadsOn(y0: Yield, y1: Yield, y2: Yield, own: seq<LogRecord>, own': seq<LogRecord>, crew: seq<Worker>,
                crew': seq<Worker>)
    requires Leads(y0, y1, own, crew) && Leads(y1, y2, own', crew')
    ensures Leads(y0, y2, own + own', crew + crew')
  {
    Associate(own, own', y2.own);
    Associate(crew, crew', y2.workers);
  }

  /** The reference from scenario `i` on. */
  function RestAt(rd: Round, i: nat, at: Position): Yield
    requires i <= |rd.scenarios| && |at.volumes| == |rd.scenarios|
  {
    Rest(rd, AtScenario(i, Base(rd.scenarios, i)), at.base, at.volumes)
  }

  lemma IdlePasses(rd: Round, i: nat, at: Position)
    requires i < |rd.scenarios| && |at.volumes| == |rd.scenarios| && !rd.scenarios[i].Active()
    ensures Leads(RestAt(rd, i, at), RestAt(rd, i + 1, Passed(rd, i, at)), Own(rd, i, at), Crew(rd, i, at))
  {
  }

  lemma SequentialPasses(rd: Round, i: nat, at: Position)
    requires i < |rd.scenarios| && |at.volumes| == |rd.scenarios|
    requires rd.scenarios[i].Active() && rd.scenarios[i].concurrency == 0
    ensures Leads(RestAt(rd, i, at), RestAt(rd, i + 1, Passed(rd, i, at)), Own(rd, i, at), Crew(rd, i, at))
  {
    var (ph, logs, r) := rd.scenarios[i].plan(rd.time, at.volumes[i], at.base);
    MainEmits(rd, i, Base(rd.scenarios, i), logs, r, at.volumes[i := ph]);
  }

  lemma ConcurrentPasses(rd: Round, i: nat, at: Position)
    requires i < |rd.scenarios| && |at.volumes| == |rd.scenarios|
    requires rd.scenarios[i].Active() && rd.scenarios[i].concurrency > 0
    ensures Leads(RestAt(rd, i, at), RestAt(rd, i + 1, Passed(rd, i, at)), Own(rd, i, at), Crew(rd, i, at))
  {
    var (_, logs, r) := rd.scenarios[i].plan(rd.time, at.volumes[i], at.base);
    assert AfterSeeds(r, 0).calls == r.calls;
    var p := Passed(rd, i, at);
    CrewSpawns(rd, i, logs, r, 0, p.volumes, RestAt(rd, i + 1, p));
    assert Crew(rd, i, at) == CrewFrom(rd, i, logs, r, 0);
  }

  /** One scenario of the reference. */
  lemma ScenarioPasses(rd: Round, i: nat, at: Position)
    requires i < |rd.scenarios| && |at.volumes| == |rd.scenarios|
    ensures Leads(RestAt(rd, i, at), RestAt(rd, i + 1, Passed(rd, i, at)), Own(rd, i, at), Crew(rd, i, at))
  {
    if !rd.scenarios[i].Active() {
      IdlePasses(rd, i, at);
    } else if rd.scenarios[i].concurrency == 0 {
      SequentialPasses(rd, i, at);
    } else {
      ConcurrentPasses(rd, i, at);
    }
  }

  /** What is said of `rest` here is all that the induction uses. */
  lemma {:induction false} PassesAdd(rd: Round, st: Store, rest: (nat, Position) -> Yield, i: nat)
    requires StoreOk(rd, st) && i <= |rd.scenarios|
    requires forall k: nat, at: Position {:trigger Passed(rd, k, at)} |
               k < |rd.scenarios| && |at.volumes| == |rd.scenarios| ::
               Leads(rest(k, at), rest(k + 1, Passed(rd, k, at)), Own(rd, k, at), Crew(rd, k, at))
    ensures Leads(rest(0, PositionAt(rd, st, 0)), rest(i, PositionAt(rd, st, i)), Owns(rd, st, i), Crews(rd, st, i))
  {
    if i > 0 {
      PassesAdd(rd, st, rest, i - 1);
      var at, p := PositionAt(rd, st, i - 1), PositionAt(rd, st, i);
      assert p == Passed(rd, i - 1, at) && Leads(rest(i - 1, at), rest(i, p), Own(rd, i - 1, at), Crew(rd, i - 1, at));
      LeadsOn(rest(0, PositionAt(rd, st, 0)), rest(i - 1, at), rest(i, p),
              Owns(rd, st, i - 1), Own(rd, i - 1, at), Crews(rd, st, i - 1), Crew(rd, i - 1, at));
    }
  }

  lemma ReferenceIsReplay(rd: Round, st: Store)
    requires StoreOk(rd, st)
    ensures var n := |rd.scenarios|;
            var y := Reference(rd, st);
            && Position(y.base, y.volumes) == PositionAt(rd, st, n)
            && y.own == Owns(rd, st, n) && y.workers == Crews(rd, st, n)
  {
    var n := |rd.scenarios|;
    var nothing := RestAt(rd, n, PositionAt(rd, st, n));
    var rest := (i: nat, at: Position) =>
      if i <= n && |at.volumes| == |rd.scenarios| then RestAt(rd, i, at) else nothing;
    forall k: nat, at: Position | k < n && |at.volumes| == |rd.scenarios|
      ensures Leads(rest(k, at), rest(k + 1, Passed(rd, k, at)), Own(rd, k, at), Crew(rd, k, at))
    {
      ScenarioPasses(rd, k, at);
    }
    PassesAdd(rd, st, rest, n);
    NothingLeads(Reference(rd, st), nothing, Owns(rd, st, n), Crews(rd, st, n));
  }

  lemma NothingLeads(y: Yield, y': Yield, own: seq<LogRecord>, crew: seq<Worker>)
    requires Leads(y, y', own, crew) && y'.own == [] && y'.workers == []
    ensures y.own == own && y.workers == crew
  {
  }

  /** The worker whose shard is `k` adds its records to it, and the main thread its own to shard 0. */
  ghost predicate ShardsReplayed(rd: Round, st: Store, crews: seq<Worker>, own: seq<LogRecord>, st': Store)
    requires StoreOk(rd, st) && StoreOk(rd, st')
  {
    && st'.shards[0] == st.shards[0] + own
    && (forall k | 0 <= k < |crews| ::
          && WorkerOk(rd, crews[k]) && 0 < crews[k].shard
          && st'.shards[crews[k].shard] == st.shards[crews[k].shard] + Future(rd, crews[k]))
    && (forall j: nat | 0 < j < rd.numShards && (forall k | 0 <= k < |crews| :: crews[k].shard != j) ::
          st'.shards[j] == st.shards[j])
  }

  lemma ShardsOfReplay(rd: Round, st: Store, y: Yield, st': Store)
    requires StoreOk(rd, st) && RecordsExtended(rd, st, y, st')
    ensures ShardsReplayed(rd, st, y.workers, y.own, st')
  {
    forall k | 0 <= k < |y.workers|
      ensures WorkerOk(rd, y.workers[k]) && 0 < y.workers[k].shard
      ensures st'.shards[y.workers[k].shard] == st.shards[y.workers[k].shard] + Future(rd, y.workers[k])
    {
      FutureOnOwner(rd, y.workers, k);
    }
    forall j: nat | 0 < j < rd.numShards && forall k | 0 <= k < |y.workers| :: y.workers[k].shard != j
      ensures st'.shards[j] == st.shards[j]
    {
      assert st.shards[j] + [] == st.shards[j];
    }
  }

  /** Every schedule that completes a round leaves what its replay leaves: the base generator and the volume
      states of the last position, and in each shard the records of the worker that owns it, whose generator is
      a new one with the seed that the base generator answered to its own request. */
  lemma RoundIsReplayed(rd: Round, st: Store, schedule: seq<Choice>)
    requires Room(rd) && StoreOk(rd, st)
    requires Exec(rd, Begin(rd, st), schedule).main.Returned?
    ensures var st', n := End(Exec(rd, Begin(rd, st), schedule)), |rd.scenarios|;
            && StoreOk(rd, st')
            && Position(st'.base, st'.volumes) == PositionAt(rd, st, n)
            && ShardsReplayed(rd, st, Crews(rd, st, n), Owns(rd, st, n), st')
  {
    RoundIsDeterministic(rd, st, schedule);
    ReferenceIsReplay(rd, st);
    ShardsOfReplay(rd, st, Reference(rd, st), End(Exec(rd, Begin(rd, st), schedule)));
  }

  /** Two workers of a scenario have the same generator exactly when their requests were answered alike. */
  lemma SeedsTellApart(rd: Round, i: nat, at: Position, a: nat, b: nat)
    requires i < |rd.scenarios| && |at.volumes| == |rd.scenarios| && rd.scenarios[i].logsPerInterval != 0
    requires a < rd.scenarios[i].concurrency && b < rd.scenarios[i].concurrency
    ensures var r := rd.scenarios[i].plan(rd.time, at.volumes[i], at.base).2;
            && |Crew(rd, i, at)| == rd.scenarios[i].concurrency
            && (Crew(rd, i, at)[a].rng == Crew(rd, i, at)[b].rng <==>
                  AfterSeeds(r, a).Int63().0 == AfterSeeds(r, b).Int63().0)
  {
  }
}
