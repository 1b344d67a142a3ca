/** The reference run of a round, scenario by scenario: what each one's turn sends. */
module Turns {
  import opened Rand
  import opened Records
  import opened Bags
  import opened Volume
  import opened Rounds
  import opened Determinism
  import opened RoundTheorems
  import opened BatchOrder

  /** The batch of worker `wi` of scenario `i`. */
  function WorkerBatchOf(rd: Round, i: nat, logs: int, wi: nat, r: Rng): seq<LogRecord>
    requires i < |rd.scenarios| && rd.scenarios[i].concurrency > 0
  {
    var s := rd.scenarios[i];
    RunJobs(s.emit, rd.time, WorkerJobs(s, logs, wi, s.scale / s.concurrency), r).0
  }

  /** The batch of the sequential scenario `i`. */
  function MainBatchOf(rd: Round, i: nat, logs: int, r: Rng): seq<LogRecord>
    requires i < |rd.scenarios|
  {
    var s := rd.scenarios[i];
    RunJobs(s.emit, rd.time, SequentialJobs(s, logs, s.scale), r).0
  }

  /** The batches of the workers `wi` and later of scenario `i`, with generators split off `base`. */
  function Team(rd: Round, i: nat, logs: int, wi: nat, base: Rng): (batches: seq<seq<LogRecord>>)
    requires i < |rd.scenarios| && wi <= rd.scenarios[i].concurrency && rd.scenarios[i].concurrency > 0
    ensures |batches| == rd.scenarios[i].concurrency - wi
    decreases rd.scenarios[i].concurrency - wi
  {
    if wi == rd.scenarios[i].concurrency then []
    else
      var (r, next) := base.Split();
      [WorkerBatchOf(rd, i, logs, wi, r)] + Team(rd, i, logs, wi + 1, next)
  }

  function TeamEnd(rd: Round, i: nat, wi: nat, base: Rng): Rng
    requires i < |rd.scenarios| && wi <= rd.scenarios[i].concurrency
    decreases rd.scenarios[i].concurrency - wi
  {
    if wi == rd.scenarios[i].concurrency then base else TeamEnd(rd, i, wi + 1, base.Split().1)
  }

  /** All batches of the reference, the main thread's and the workers'. */
  ghost function AllOf(rd: Round, y: Yield): multiset<seq<LogRecord>> {
    multiset(y.batches) + Sum(y.workers, WholeBatch(rd))
  }

  lemma SumCons<T, E>(x: T, xs: seq<T>, f: T -> multiset<E>)
    ensures Sum([x] + xs, f) == f(x) + Sum(xs, f)
  {
    SumAppend([x], xs, f);
    SumOne(x, f);
  }

  lemma BagCons<T>(x: T, xs: seq<T>)
    ensures multiset([x] + xs) == multiset{x} + multiset(xs)
  {
  }

  /** The workers `wi` and later of scenario `i`. */
  function TeamWorkers(rd: Round, i: nat, sb: nat, logs: int, wi: nat, base: Rng): seq<Worker>
    requires i < |rd.scenarios| && wi <= rd.scenarios[i].concurrency && rd.scenarios[i].concurrency > 0
    decreases rd.scenarios[i].concurrency - wi
  {
    if wi == rd.scenarios[i].concurrency then []
    else
      var (r, next) := base.Split();
      [NewWorker(rd, i, sb, logs, wi, r)] + TeamWorkers(rd, i, sb, logs, wi + 1, next)
  }

  lemma WorkerYields(rd: Round, i: nat, sb: nat, logs: int, wi: nat, r: Rng)
    requires i < |rd.scenarios| && rd.scenarios[i].concurrency > 0
    ensures WholeBatch(rd)(NewWorker(rd, i, sb, logs, wi, r)) == multiset{WorkerBatchOf(rd, i, logs, wi, r)}
  {
  }

  lemma {:induction false} TeamYields(rd: Round, i: nat, sb: nat, logs: int, wi: nat, base: Rng)
    requires i < |rd.scenarios| && wi <= rd.scenarios[i].concurrency && rd.scenarios[i].concurrency > 0
    ensures Sum(TeamWorkers(rd, i, sb, logs, wi, base), WholeBatch(rd)) == multiset(Team(rd, i, logs, wi, base))
    decreases rd.scenarios[i].concurrency - wi
  {
    if wi < rd.scenarios[i].concurrency {
      var (r, next) := base.Split();
      TeamYields(rd, i, sb, logs, wi + 1, next);
      WorkerYields(rd, i, sb, logs, wi, r);
      SumCons(NewWorker(rd, i, sb, logs, wi, r), TeamWorkers(rd, i, sb, logs, wi + 1, next), WholeBatch(rd));
      BagCons(WorkerBatchOf(rd, i, logs, wi, r), Team(rd, i, logs, wi + 1, next));
    }
  }

  /** The reference spawns the team and goes on with the next scenario. */
  lemma {:induction false} TeamTurn(rd: Round, i: nat, sb: nat, logs: int, wi: nat, base: Rng, volumes: seq<Phase>)
    requires |volumes| == |rd.scenarios| && i < |rd.scenarios|
    requires wi <= rd.scenarios[i].concurrency && rd.scenarios[i].concurrency > 0
    ensures var y := Rest(rd, Spawning(i, sb, logs, wi), base, volumes);
            var y' := Rest(rd, AtScenario(i + 1, sb + rd.scenarios[i].concurrency), TeamEnd(rd, i, wi, base), volumes);
            y.workers == TeamWorkers(rd, i, sb, logs, wi, base) + y'.workers && y.batches == y'.batches
    decreases rd.scenarios[i].concurrency - wi
  {
    if wi < rd.scenarios[i].concurrency {
      var (r, next) := base.Split();
      TeamTurn(rd, i, sb, logs, wi + 1, next, volumes);
      RestSpawns(rd, i, sb, logs, wi, base, volumes);
    } else {
      RestStops(rd, i, sb, logs, wi, base, volumes);
    }
  }

  lemma RestSpawns(rd: Round, i: nat, sb: nat, logs: int, wi: nat, base: Rng, volumes: seq<Phase>)
    requires |volumes| == |rd.scenarios| && i < |rd.scenarios| && wi < rd.scenarios[i].concurrency
    ensures var (r, next) := base.Split();
            var y := Rest(rd, Spawning(i, sb, logs, wi), base, volumes);
            var y' := Rest(rd, Spawning(i, sb, logs, wi + 1), next, volumes);
            && y.early == [] && y.batches == y'.batches
            && y.workers == [NewWorker(rd, i, sb, logs, wi, r)] + y'.workers
  {
  }

  lemma RestStops(rd: Round, i: nat, sb: nat, logs: int, wi: nat, base: Rng, volumes: seq<Phase>)
    requires |volumes| == |rd.scenarios| && i < |rd.scenarios| && wi == rd.scenarios[i].concurrency > 0
    ensures var y := Rest(rd, Spawning(i, sb, logs, wi), base, volumes);
            var y' := Rest(rd, AtScenario(i + 1, sb + rd.scenarios[i].concurrency), base, volumes);
            y.workers == y'.workers && y.batches == y'.batches
  {
  }

  lemma TeamBag(rd: Round, y: Yield, team: seq<Worker>, y': Yield)
    requires y.workers == team + y'.workers && y.batches == y'.batches
    ensures AllOf(rd, y) == Sum(team, WholeBatch(rd)) + AllOf(rd, y')
  {
    SumAppend(team, y'.workers, WholeBatch(rd));
  }

  /** What a scenario's turn sends: one batch or one a worker, if it is active. */
  datatype Turn = Turn(logs: int, from: Rng, sent: seq<seq<LogRecord>>, base: Rng, volumes: seq<Phase>)

  function TurnOf(rd: Round, i: nat, base: Rng, volumes: seq<Phase>): (t: Turn)
    requires i < |rd.scenarios| && |volumes| == |rd.scenarios|
    ensures |t.volumes| == |volumes|
  {
    var s := rd.scenarios[i];
    if !s.Active() then Turn(0, base, [], base, volumes)
    else
      var (ph, logs, r) := s.plan(rd.time, volumes[i], base);
      if s.concurrency == 0 then
        var end := RunJobs(s.emit, rd.time, SequentialJobs(s, logs, s.scale), r).1;
        Turn(logs, r, [MainBatchOf(rd, i, logs, r)], end, volumes[i := ph])
      else Turn(logs, r, Team(rd, i, logs, 0, r), TeamEnd(rd, i, 0, r), volumes[i := ph])
  }

  function NextBase(rd: Round, i: nat, sb: nat): nat
    requires i < |rd.scenarios|
  {
    if rd.scenarios[i].Active() then sb + rd.scenarios[i].concurrency else sb
  }

  ghost function After(rd: Round, i: nat, sb: nat, base: Rng, volumes: seq<Phase>): Yield
    requires i < |rd.scenarios| && |volumes| == |rd.scenarios|
  {
    var t := TurnOf(rd, i, base, volumes);
    Rest(rd, AtScenario(i + 1, NextBase(rd, i, sb)), t.base, t.volumes)
  }

  lemma MainTurn(rd: Round, i: nat, sb: nat, logs: int, base: Rng, volumes: seq<Phase>)
    requires |volumes| == |rd.scenarios| && i < |rd.scenarios|
    ensures var s := rd.scenarios[i];
            var jobs := SequentialJobs(s, logs, s.scale);
            var y := Rest(rd, Emitting(i, sb, jobs, []), base, volumes);
            var y' := Rest(rd, AtScenario(i + 1, sb), RunJobs(s.emit, rd.time, jobs, base).1, volumes);
            var batch := MainBatchOf(rd, i, logs, base);
            y.batches == [batch] + y'.batches && y.early == [batch] + y'.early && y.workers == y'.workers
  {
    var s := rd.scenarios[i];
    var (recs, r) := RunJobs(s.emit, rd.time, SequentialJobs(s, logs, s.scale), base);
    assert [] + recs == recs;
    var y2 := Rest(rd, Sending(i, sb, recs), r, volumes);
    var y1 := Rest(rd, Adding(i, sb, recs, 0), r, volumes);
    assert y1.batches == y2.batches && y1.early == y2.early && y1.workers == y2.workers;
  }

  lemma SentBag(rd: Round, y: Yield, y': Yield, batch: seq<LogRecord>)
    requires y.batches == [batch] + y'.batches && y.workers == y'.workers
    ensures AllOf(rd, y) == multiset{batch} + AllOf(rd, y')
    ensures y.early == [batch] + y'.early ==> LateOf(rd, y) == LateOf(rd, y')
  {
    BagCons(batch, y'.batches);
    BagCons(batch, y'.early);
  }

  lemma InactiveTurn(rd: Round, i: nat, sb: nat, base: Rng, volumes: seq<Phase>)
    requires |volumes| == |rd.scenarios| && i < |rd.scenarios| && !rd.scenarios[i].Active()
    ensures AllOf(rd, Rest(rd, AtScenario(i, sb), base, volumes))
         == multiset(TurnOf(rd, i, base, volumes).sent) + AllOf(rd, After(rd, i, sb, base, volumes))
    ensures LateOf(rd, Rest(rd, AtScenario(i, sb), base, volumes)) == LateOf(rd, After(rd, i, sb, base, volumes))
  {
    var y, y' := Rest(rd, AtScenario(i, sb), base, volumes), After(rd, i, sb, base, volumes);
    assert y.batches == y'.batches && y.workers == y'.workers && y.early == y'.early;
  }

  lemma SequentialTurn(rd: Round, i: nat, sb: nat, base: Rng, volumes: seq<Phase>)
    requires |volumes| == |rd.scenarios| && i < |rd.scenarios|
    requires rd.scenarios[i].Active() && rd.scenarios[i].concurrency == 0
    ensures AllOf(rd, Rest(rd, AtScenario(i, sb), base, volumes))
         == multiset(TurnOf(rd, i, base, volumes).sent) + AllOf(rd, After(rd, i, sb, base, volumes))
    ensures LateOf(rd, Rest(rd, AtScenario(i, sb), base, volumes)) == LateOf(rd, After(rd, i, sb, base, volumes))
  {
    var s := rd.scenarios[i];
    var (ph, logs, r) := s.plan(rd.time, volumes[i], base);
    var y, y' := Rest(rd, AtScenario(i, sb), base, volumes), After(rd, i, sb, base, volumes);
    MainTurn(rd, i, sb, logs, r, volumes[i := ph]);
    var z := Rest(rd, Emitting(i, sb, SequentialJobs(s, logs, s.scale), []), r, volumes[i := ph]);
    assert y.batches == z.batches && y.workers == z.workers && y.early == z.early;
    SentBag(rd, y, y', MainBatchOf(rd, i, logs, r));
  }

  lemma ConcurrentTurn(rd: Round, i: nat, sb: nat, base: Rng, volumes: seq<Phase>)
    requires |volumes| == |rd.scenarios| && i < |rd.scenarios|
    requires rd.scenarios[i].Active() && rd.scenarios[i].concurrency > 0
    ensures AllOf(rd, Rest(rd, AtScenario(i, sb), base, volumes))
         == multiset(TurnOf(rd, i, base, volumes).sent) + AllOf(rd, After(rd, i, sb, base, volumes))
    ensures Rest(rd, AtScenario(i, sb), base, volumes).early == []
  {
    var (ph, logs, r) := rd.scenarios[i].plan(rd.time, volumes[i], base);
    var y, y' := Rest(rd, AtScenario(i, sb), base, volumes), After(rd, i, sb, base, volumes);
    StartsTeam(rd, i, sb, base, volumes);
    TeamTurn(rd, i, sb, logs, 0, r, volumes[i := ph]);
    TeamBag(rd, y, TeamWorkers(rd, i, sb, logs, 0, r), y');
    TeamYields(rd, i, sb, logs, 0, r);
  }

  lemma StartsTeam(rd: Round, i: nat, sb: nat, base: Rng, volumes: seq<Phase>)
    requires |volumes| == |rd.scenarios| && i < |rd.scenarios|
    requires rd.scenarios[i].Active() && rd.scenarios[i].concurrency > 0
    ensures var (ph, logs, r) := rd.scenarios[i].plan(rd.time, volumes[i], base);
            var y := Rest(rd, AtScenario(i, sb), base, volumes);
            var z := Rest(rd, Spawning(i, sb, logs, 0), r, volumes[i := ph]);
            y.workers == z.workers && y.batches == z.batches && y.early == []
  {
    var (ph, logs, r) := rd.scenarios[i].plan(rd.time, volumes[i], base);
    RestSpawns(rd, i, sb, logs, 0, r, volumes[i := ph]);
  }

  lemma {:induction false} TeamMember(rd: Round, i: nat, logs: int, wi: nat, base: Rng, k: nat) returns (r: Rng)
    requires i < |rd.scenarios| && wi <= rd.scenarios[i].concurrency && rd.scenarios[i].concurrency > 0
    requires k < rd.scenarios[i].concurrency - wi
    ensures Team(rd, i, logs, wi, base)[k] == WorkerBatchOf(rd, i, logs, wi + k, r)
    decreases k
  {
    if k == 0 {
      r := base.Split().0;
    } else {
      r := TeamMember(rd, i, logs, wi + 1, base.Split().1, k - 1);
    }
  }

  // ----- all turns

  /** The turns of a round as a function of where the reference is, of which only what is said here is used. */
  type TurnFunction = (nat, Rng, seq<Phase>) -> Turn

  ghost predicate Describes(turn: TurnFunction, rd: Round) {
    && (forall i: nat, base: Rng, volumes: seq<Phase> :: |turn(i, base, volumes).volumes| == |volumes|)
    && (forall i: nat, base: Rng, volumes: seq<Phase> {:trigger TurnOf(rd, i, base, volumes)} |
          i < |rd.scenarios| && |volumes| == |rd.scenarios| ::
          turn(i, base, volumes) == TurnOf(rd, i, base, volumes))
  }

  function TurnsOf(rd: Round): TurnFunction {
    (i: nat, base: Rng, volumes: seq<Phase>) =>
      if i < |rd.scenarios| && |volumes| == |rd.scenarios| then TurnOf(rd, i, base, volumes)
      else Turn(0, base, [], base, volumes)
  }

  lemma TurnsDescribe(rd: Round)
    ensures Describes(TurnsOf(rd), rd)
  {
  }

  /** What is sent in the turns from `i` on, before `n`. */
  ghost function Sends(turn: TurnFunction, n: nat, i: nat, base: Rng, volumes: seq<Phase>): multiset<seq<LogRecord>>
    decreases n - i
  {
    if i >= n then multiset{}
    else
      var t := turn(i, base, volumes);
      multiset(t.sent) + Sends(turn, n, i + 1, t.base, t.volumes)
  }

  /** What holds of every batch of every turn holds of all that is sent. */
  lemma {:induction false} SendsAll(
      turn: TurnFunction, n: nat, i: nat, base: Rng, volumes: seq<Phase>, p: seq<LogRecord> -> bool)
    requires forall k: nat, r: Rng, v: seq<Phase> :: |turn(k, r, v).volumes| == |v|
    requires forall k: nat, r: Rng, v: seq<Phase>, b |
               i <= k < n && |v| == |volumes| && b in turn(k, r, v).sent :: p(b)
    ensures forall b | b in Sends(turn, n, i, base, volumes) :: p(b)
    decreases n - i
  {
    if i < n {
      var t := turn(i, base, volumes);
      SendsAll(turn, n, i + 1, t.base, t.volumes, p);
    }
  }

  /** What a turn sends is sent. */
  lemma {:induction false} SendsTurn(turn: TurnFunction, n: nat, i: nat, base: Rng, volumes: seq<Phase>, j: nat)
    returns (r: Rng, v: seq<Phase>)
    requires forall k: nat, r: Rng, v: seq<Phase> :: |turn(k, r, v).volumes| == |v|
    requires i <= j < n
    ensures |v| == |volumes| && forall b | b in turn(j, r, v).sent :: b in Sends(turn, n, i, base, volumes)
    decreases n - i
  {
    if i == j {
      r, v := base, volumes;
    } else {
      var t := turn(i, base, volumes);
      r, v := SendsTurn(turn, n, i + 1, t.base, t.volumes, j);
    }
  }

  /** One turn of the reference. */
  lemma ReferenceTurn(rd: Round, turn: TurnFunction, i: nat, sb: nat, base: Rng, volumes: seq<Phase>)
    returns (sb': nat)
    requires Describes(turn, rd) && i < |rd.scenarios| && |volumes| == |rd.scenarios|
    ensures var t := turn(i, base, volumes);
            && |t.volumes| == |volumes|
            && var y := Rest(rd, AtScenario(i, sb), base, volumes);
            && var y' := Rest(rd, AtScenario(i + 1, sb'), t.base, t.volumes);
            && AllOf(rd, y) == multiset(t.sent) + AllOf(rd, y')
            && (Spawns(rd.scenarios[i]) ==> y.early == [])
            && (!Spawns(rd.scenarios[i]) ==> LateOf(rd, y) == LateOf(rd, y'))
  {
    assert turn(i, base, volumes) == TurnOf(rd, i, base, volumes);
    sb' := NextBase(rd, i, sb);
    if !rd.scenarios[i].Active() {
      InactiveTurn(rd, i, sb, base, volumes);
    } else if rd.scenarios[i].concurrency == 0 {
      SequentialTurn(rd, i, sb, base, volumes);
    } else {
      ConcurrentTurn(rd, i, sb, base, volumes);
    }
  }

  lemma NothingAtTheEnd(rd: Round, sb: nat, base: Rng, volumes: seq<Phase>)
    requires |volumes| == |rd.scenarios|
    ensures AllOf(rd, Rest(rd, AtScenario(|rd.scenarios|, sb), base, volumes)) == multiset{}
  {
  }

  /** The reference sends what the turns send. */
  lemma {:induction false} ReferenceSends(
      rd: Round, turn: TurnFunction, i: nat, sb: nat, base: Rng, volumes: seq<Phase>)
    requires Describes(turn, rd) && i <= |rd.scenarios| && |volumes| == |rd.scenarios|
    ensures AllOf(rd, Rest(rd, AtScenario(i, sb), base, volumes)) == Sends(turn, |rd.scenarios|, i, base, volumes)
    decreases |rd.scenarios| - i
  {
    if i == |rd.scenarios| {
      NothingAtTheEnd(rd, sb, base, volumes);
    } else {
      var t := turn(i, base, volumes);
      var sb' := ReferenceTurn(rd, turn, i, sb, base, volumes);
      ReferenceSends(rd, turn, i + 1, sb', t.base, t.volumes);
    }
  }
}
