/** Same seed, same output: the outcome of a round does not depend on how its threads interleave.

`Rest` is the reference: it runs the main thread on its own, with every worker's run read off at the
point where it is spawned.  `Outcome` adds to a state what its threads have still to contribute; every
step of every thread leaves it unchanged, so all schedules end where the reference does. */
module Determinism {
  import opened Rand
  import opened Records
  import opened Bags
  import opened Volume
  import opened Rounds

  // ----- the reference

  /** What the main thread still does: the generator and volume states it ends with, the records it puts
      in shard 0, the workers it spawns, the batches it sends, those of them it sends before it spawns a
      worker, and the number of steps it takes. */
  datatype Yield = Yield(
    base: Rng, volumes: seq<Phase>, own: seq<LogRecord>, workers: seq<Worker>, batches: seq<seq<LogRecord>>,
    early: seq<seq<LogRecord>>, steps: nat)

  function Rank(pc: MainPc): nat {
    match pc
    case Spawning(_, _, _, _) => 4
    case Emitting(_, _, _, _) => 3
    case Adding(_, _, _, _) => 2
    case Sending(_, _, _) => 1
    case _ => 5
  }

  function Rest(rd: Round, pc: MainPc, base: Rng, volumes: seq<Phase>): (y: Yield)
    requires PcOk(rd, pc) && |volumes| == |rd.scenarios|
    ensures |y.volumes| == |volumes|
    decreases if pc.Returned? then 0 else |rd.scenarios| - pc.i, Rank(pc),
              if pc.Spawning? then rd.scenarios[pc.i].concurrency - pc.wi else 0
  {
    match pc
    case Returned => Yield(base, volumes, [], [], [], [], 0)
    case AtScenario(i, sb) =>
      if i == |rd.scenarios| then Yield(base, volumes, [], [], [], [], 1)
      else if !rd.scenarios[i].Active() then
        var y := Rest(rd, AtScenario(i + 1, sb), base, volumes);
        y.(steps := y.steps + 1)
      else
        var scn := rd.scenarios[i];
        var (ph, logs, r) := scn.plan(rd.time, volumes[i], base);
        var y := Rest(rd,
                      if scn.concurrency == 0 then Emitting(i, sb, SequentialJobs(scn, logs, scn.scale), [])
                      else Spawning(i, sb, logs, 0),
                      r, volumes[i := ph]);
        y.(steps := y.steps + 1)
    case Emitting(i, sb, jobs, batch) =>
      var (recs, r) := RunJobs(rd.scenarios[i].emit, rd.time, jobs, base);
      var y := Rest(rd, Adding(i, sb, batch + recs, 0), r, volumes);
      y.(own := recs + y.own, steps := |jobs| + 1 + y.steps)
    case Adding(i, sb, batch, _) =>
      var y := Rest(rd, Sending(i, sb, batch), base, volumes);
      y.(steps := y.steps + 1)
    case Sending(i, sb, batch) =>
      var y := Rest(rd, AtScenario(i + 1, sb), base, volumes);
      y.(batches := [batch] + y.batches, early := [batch] + y.early, steps := y.steps + 1)
    case Spawning(i, sb, logs, wi) =>
      if wi >= rd.scenarios[i].concurrency then
        var y := Rest(rd, AtScenario(i + 1, sb + rd.scenarios[i].concurrency), base, volumes);
        y.(steps := y.steps + 1)
      else
        var (r, next) := base.Split();
        var y := Rest(rd, Spawning(i, sb, logs, wi + 1), next, volumes);
        y.(workers := [NewWorker(rd, i, sb, logs, wi, r)] + y.workers, early := [], steps := y.steps + 1)
  }

  function Future(rd: Round, w: Worker): seq<LogRecord>
    requires WorkerOk(rd, w)
  {
    RunJobs(rd.scenarios[w.scn].emit, rd.time, w.jobs, w.rng).0
  }

  /** What a step of the main thread contributes to the state. */
  datatype Effect = Silent | Emitted(rec: LogRecord) | Sent(batch: seq<LogRecord>) | Spawned(w: Worker)

  function MainEffect(rd: Round, pc: MainPc, base: Rng): Effect
    requires PcOk(rd, pc)
  {
    match pc
    case Emitting(i, _, jobs, _) =>
      if jobs == [] then Silent else Emitted(rd.scenarios[i].emit(rd.time, jobs[0], base).0)
    case Sending(_, _, batch) => Sent(batch)
    case Spawning(i, sb, logs, wi) =>
      if wi >= rd.scenarios[i].concurrency then Silent else Spawned(NewWorker(rd, i, sb, logs, wi, base.Split().0))
    case _ => Silent
  }

  function Undo(e: Effect, y: Yield): Yield {
    match e
    case Silent => y
    case Emitted(rec) => y.(own := [rec] + y.own)
    case Sent(batch) => y.(batches := [batch] + y.batches, early := [batch] + y.early)
    case Spawned(w) => y.(workers := [w] + y.workers, early := [])
  }

  function Apply(e: Effect, st: Store): Store
    requires |st.shards| > 0
  {
    match e
    case Silent => st
    case Emitted(rec) => st.(shards := st.shards[0 := st.shards[0] + [rec]], needles := st.needles + NeedleBag(rec))
    case Sent(batch) => st.(sink := st.sink + [batch])
    case Spawned(w) => st
  }

  /** The reference from a state is one effect and the reference from the next state. */
  lemma RestStep(rd: Round, s: State)
    requires Ok(rd, s) && Enabled(rd, s, Main)
    ensures var s' := StepMain(rd, s);
            var y, y' := Rest(rd, s.main, s.base, s.volumes), Rest(rd, s'.main, s'.base, s'.volumes);
            y == Undo(MainEffect(rd, s.main, s.base), y').(steps := y'.steps + 1)
  {
    match s.main
    case Emitting(i, sb, jobs, batch) =>
      if jobs == [] {
        assert batch + [] == batch;
        var y' := Rest(rd, Adding(i, sb, batch, s.total), s.base, s.volumes);
        assert [] + y'.own == y'.own;
      } else {
        RestEmit(rd, i, sb, jobs, batch, s.base, s.volumes);
      }
    case Spawning(_, _, _, _) =>
    case _ =>
  }

  lemma RestEmit(rd: Round, i: nat, sb: nat, jobs: seq<nat>, batch: seq<LogRecord>, base: Rng, volumes: seq<Phase>)
    requires i < |rd.scenarios| && |volumes| == |rd.scenarios| && jobs != []
    ensures var (rec, r) := rd.scenarios[i].emit(rd.time, jobs[0], base);
            var y' := Rest(rd, Emitting(i, sb, jobs[1..], batch + [rec]), r, volumes);
            Rest(rd, Emitting(i, sb, jobs, batch), base, volumes) == y'.(own := [rec] + y'.own, steps := y'.steps + 1)
  {
    var (rec, r) := rd.scenarios[i].emit(rd.time, jobs[0], base);
    var (recs, r2) := RunJobs(rd.scenarios[i].emit, rd.time, jobs[1..], r);
    assert batch + ([rec] + recs) == (batch + [rec]) + recs;
    var y := Rest(rd, Adding(i, sb, batch + [rec] + recs, 0), r2, volumes);
    assert ([rec] + recs) + y.own == [rec] + (recs + y.own);
  }

  // ----- who owns which shard

  /** Distinct workers write to distinct shards, and none to the main thread's shard 0. */
  ghost predicate Owned(rd: Round, ws: seq<Worker>) {
    && (forall i | 0 <= i < |ws| :: WorkerOk(rd, ws[i]) && ws[i].shard > 0)
    && (forall i, j | 0 <= i < j < |ws| :: ws[i].shard != ws[j].shard)
  }

  ghost function FutureOn(rd: Round, ws: seq<Worker>, shard: nat): seq<LogRecord>
    requires Owned(rd, ws)
  {
    if exists i :: 0 <= i < |ws| && ws[i].shard == shard
    then var i :| 0 <= i < |ws| && ws[i].shard == shard; Future(rd, ws[i])
    else []
  }

  lemma FutureOnOwner(rd: Round, ws: seq<Worker>, k: nat)
    requires Owned(rd, ws) && k < |ws|
    ensures FutureOn(rd, ws, ws[k].shard) == Future(rd, ws[k])
  {
  }

  lemma OtherShards(rd: Round, ws: seq<Worker>, k: nat, w: Worker, shard: nat)
    requires Owned(rd, ws) && k < |ws| && w.shard == ws[k].shard && Owned(rd, ws[k := w])
    requires shard != w.shard
    ensures FutureOn(rd, ws[k := w], shard) == FutureOn(rd, ws, shard)
  {
    var vs := ws[k := w];
    if i :| 0 <= i < |ws| && ws[i].shard == shard {
      FutureOnOwner(rd, ws, i);
      FutureOnOwner(rd, vs, i);
    } else {
      assert forall i | 0 <= i < |vs| :: vs[i].shard != shard;
    }
  }

  // ----- what a state will have come to, once the main thread (`y`) and the workers (`ws`) are through

  ghost function FutureBatch(rd: Round): Worker -> multiset<seq<LogRecord>> {
    (w: Worker) => if w.pc == Finished || !WorkerOk(rd, w) then multiset{} else multiset{w.batch + Future(rd, w)}
  }

  ghost function FutureNeedles(rd: Round): Worker -> multiset<string> {
    (w: Worker) => if !WorkerOk(rd, w) then multiset{} else Sum(Future(rd, w), NeedleBag)
  }

  ghost function FinalShard(rd: Round, shard: seq<LogRecord>, y: Yield, ws: seq<Worker>, k: nat): seq<LogRecord>
    requires Owned(rd, ws)
  {
    shard + if k == 0 then y.own else FutureOn(rd, ws, k)
  }

  ghost function FinalNeedles(rd: Round, needles: multiset<string>, y: Yield, ws: seq<Worker>): multiset<string> {
    (needles + Sum(y.own, NeedleBag)) + Sum(ws, FutureNeedles(rd))
  }

  ghost function FinalSink(rd: Round, sink: seq<seq<LogRecord>>, y: Yield, ws: seq<Worker>): multiset<seq<LogRecord>> {
    (multiset(sink) + multiset(y.batches)) + Sum(ws, FutureBatch(rd))
  }

  ghost predicate SameShards(
    rd: Round, shards: seq<seq<LogRecord>>, y: Yield, ws: seq<Worker>,
    shards': seq<seq<LogRecord>>, y': Yield, ws': seq<Worker>)
    requires Owned(rd, ws) && Owned(rd, ws')
  {
    && |shards| == |shards'|
    && forall k: nat | k < |shards| ::
         FinalShard(rd, shards[k], y, ws, k) == FinalShard(rd, shards'[k], y', ws', k)
  }

  ghost predicate SameOutcome(
    rd: Round, st: Store, y: Yield, ws: seq<Worker>, st': Store, y': Yield, ws': seq<Worker>)
  {
    && Owned(rd, ws) && Owned(rd, ws')
    && y.base == y'.base && y.volumes == y'.volumes
    && SameShards(rd, st.shards, y, ws, st'.shards, y', ws')
    && FinalNeedles(rd, st.needles, y, ws) == FinalNeedles(rd, st'.needles, y', ws')
    && FinalSink(rd, st.sink, y, ws) == FinalSink(rd, st'.sink, y', ws')
  }

  lemma ConsNeedles(rec: LogRecord, recs: seq<LogRecord>)
    ensures Sum([rec] + recs, NeedleBag) == NeedleBag(rec) + Sum(recs, NeedleBag)
  {
    SumAppend([rec], recs, NeedleBag);
    SumOne(rec, NeedleBag);
  }

  lemma EmittedKeeps(rd: Round, st: Store, y: Yield, ws: seq<Worker>, rec: LogRecord)
    requires Owned(rd, ws) && |st.shards| > 0
    ensures SameOutcome(rd, st, Undo(Emitted(rec), y), ws, Apply(Emitted(rec), st), y, ws)
  {
    ConsNeedles(rec, y.own);
    assert (st.needles + NeedleBag(rec)) + Sum(y.own, NeedleBag)
        == st.needles + (NeedleBag(rec) + Sum(y.own, NeedleBag));
    assert (st.shards[0] + [rec]) + y.own == st.shards[0] + ([rec] + y.own);
  }

  lemma SentKeeps(rd: Round, st: Store, y: Yield, ws: seq<Worker>, batch: seq<LogRecord>)
    requires Owned(rd, ws) && |st.shards| > 0
    ensures SameOutcome(rd, st, Undo(Sent(batch), y), ws, Apply(Sent(batch), st), y, ws)
  {
    assert multiset(st.sink + [batch]) + multiset(y.batches) == multiset(st.sink) + multiset([batch] + y.batches);
  }

  lemma EffectKeeps(rd: Round, st: Store, y: Yield, ws: seq<Worker>, e: Effect)
    requires Owned(rd, ws) && |st.shards| > 0
    ensures SameOutcome(rd, st, Undo(e, y), ws, Apply(e, st), y, ws)
  {
    match e
    case Emitted(rec) => EmittedKeeps(rd, st, y, ws, rec);
    case Sent(batch) => SentKeeps(rd, st, y, ws, batch);
    case _ =>
  }

  // ----- a worker's step

  lemma WorkerNeedles(
      rd: Round, needles: multiset<string>, y: Yield, ws: seq<Worker>, k: nat, w: Worker, moved: multiset<string>)
    requires k < |ws|
    requires FutureNeedles(rd)(ws[k]) == moved + FutureNeedles(rd)(w)
    ensures FinalNeedles(rd, needles + moved, y, ws[k := w]) == FinalNeedles(rd, needles, y, ws)
  {
    SumUpdate(ws, k, w, FutureNeedles(rd));
    var own := Sum(y.own, NeedleBag);
    Transfer(needles + own, Sum(ws, FutureNeedles(rd)), Sum(ws[k := w], FutureNeedles(rd)), moved,
             FutureNeedles(rd)(w));
    assert (needles + moved) + own == (needles + own) + moved;
  }

  lemma WorkerSink(
      rd: Round, sink: seq<seq<LogRecord>>, y: Yield, ws: seq<Worker>, k: nat, w: Worker, moved: seq<seq<LogRecord>>)
    requires k < |ws|
    requires FutureBatch(rd)(ws[k]) == multiset(moved) + FutureBatch(rd)(w)
    ensures FinalSink(rd, sink + moved, y, ws[k := w]) == FinalSink(rd, sink, y, ws)
  {
    SumUpdate(ws, k, w, FutureBatch(rd));
    var rest := multiset(sink) + multiset(y.batches);
    Transfer(rest, Sum(ws, FutureBatch(rd)), Sum(ws[k := w], FutureBatch(rd)), multiset(moved), FutureBatch(rd)(w));
    assert multiset(sink + moved) + multiset(y.batches) == rest + multiset(moved);
  }

  lemma WorkerShards(
      rd: Round, shards: seq<seq<LogRecord>>, y: Yield, ws: seq<Worker>, k: nat, w: Worker, moved: seq<LogRecord>)
    requires Owned(rd, ws) && k < |ws| && |shards| == rd.numShards
    requires WorkerOk(rd, w) && w.shard == ws[k].shard
    requires Future(rd, ws[k]) == moved + Future(rd, w)
    ensures Owned(rd, ws[k := w])
    ensures SameShards(rd, shards, y, ws, shards[w.shard := shards[w.shard] + moved], y, ws[k := w])
  {
    forall j: nat | j < rd.numShards
      ensures FinalShard(rd, shards[w.shard := shards[w.shard] + moved][j], y, ws[k := w], j)
           == FinalShard(rd, shards[j], y, ws, j)
    {
      if j == w.shard {
        FutureOnOwner(rd, ws, k);
        FutureOnOwner(rd, ws[k := w], k);
        assert (shards[j] + moved) + Future(rd, w) == shards[j] + (moved + Future(rd, w));
      } else {
        OtherShards(rd, ws, k, w, j);
      }
    }
  }

  lemma WorkerEmits(rd: Round, st: Store, y: Yield, ws: seq<Worker>, k: nat, rec: LogRecord, w: Worker)
    requires Owned(rd, ws) && k < |ws| && |st.shards| == rd.numShards
    requires ws[k].pc == Working && ws[k].jobs != []
    requires var (rec', r) := rd.scenarios[ws[k].scn].emit(rd.time, ws[k].jobs[0], ws[k].rng);
             rec == rec' && w == ws[k].(rng := r, jobs := ws[k].jobs[1..], batch := ws[k].batch + [rec])
    ensures SameOutcome(rd, st, y, ws,
                        st.(shards := st.shards[w.shard := st.shards[w.shard] + [rec]],
                            needles := st.needles + NeedleBag(rec)),
                        y, ws[k := w])
  {
    assert WorkerOk(rd, ws[k]) && WorkerOk(rd, w);
    EmitSplits(rd, ws[k], w, rec);
    RecordMoves(rd, st, y, ws, k, w, rec);
  }

  lemma RecordMoves(rd: Round, st: Store, y: Yield, ws: seq<Worker>, k: nat, w: Worker, rec: LogRecord)
    requires Owned(rd, ws) && k < |ws| && |st.shards| == rd.numShards
    requires WorkerOk(rd, ws[k]) && WorkerOk(rd, w) && w.shard == ws[k].shard
    requires Future(rd, ws[k]) == [rec] + Future(rd, w)
    requires FutureNeedles(rd)(ws[k]) == NeedleBag(rec) + FutureNeedles(rd)(w)
    requires FutureBatch(rd)(ws[k]) == multiset([]) + FutureBatch(rd)(w)
    ensures SameOutcome(rd, st, y, ws,
                        st.(shards := st.shards[w.shard := st.shards[w.shard] + [rec]],
                            needles := st.needles + NeedleBag(rec)),
                        y, ws[k := w])
  {
    WorkerNeedles(rd, st.needles, y, ws, k, w, NeedleBag(rec));
    WorkerSink(rd, st.sink, y, ws, k, w, []);
    assert st.sink + [] == st.sink;
    WorkerShards(rd, st.shards, y, ws, k, w, [rec]);
  }

  /** The record emitted moves from what a worker will do to what it has done. */
  lemma EmitSplits(rd: Round, w: Worker, w': Worker, rec: LogRecord)
    requires WorkerOk(rd, w) && WorkerOk(rd, w') && w.pc == Working && w.jobs != []
    requires var (rec', r) := rd.scenarios[w.scn].emit(rd.time, w.jobs[0], w.rng);
             rec == rec' && w' == w.(rng := r, jobs := w.jobs[1..], batch := w.batch + [rec])
    ensures Future(rd, w) == [rec] + Future(rd, w')
    ensures FutureNeedles(rd)(w) == NeedleBag(rec) + FutureNeedles(rd)(w')
    ensures FutureBatch(rd)(w) == multiset([]) + FutureBatch(rd)(w')
  {
    var recs := Future(rd, w');
    assert w.batch + ([rec] + recs) == w'.batch + recs;
    ConsNeedles(rec, recs);
  }

  lemma ShardsStand(rd: Round, shards: seq<seq<LogRecord>>, y: Yield, ws: seq<Worker>, k: nat, w: Worker)
    requires Owned(rd, ws) && k < |ws| && |shards| == rd.numShards
    requires w == ws[k].(pc := w.pc) && ws[k].jobs == []
    ensures Owned(rd, ws[k := w])
    ensures SameShards(rd, shards, y, ws, shards, y, ws[k := w])
  {
    assert WorkerOk(rd, ws[k]) && WorkerOk(rd, w);
    WorkerShards(rd, shards, y, ws, k, w, []);
    assert shards[w.shard] + [] == shards[w.shard];
    assert shards[w.shard := shards[w.shard]] == shards;
  }

  lemma NeedlesStand(rd: Round, needles: multiset<string>, y: Yield, ws: seq<Worker>, k: nat, w: Worker)
    requires k < |ws| && WorkerOk(rd, ws[k]) && WorkerOk(rd, w)
    requires w == ws[k].(pc := w.pc) && ws[k].jobs == []
    ensures FinalNeedles(rd, needles, y, ws[k := w]) == FinalNeedles(rd, needles, y, ws)
  {
    WorkerNeedles(rd, needles, y, ws, k, w, multiset{});
    assert needles + multiset{} == needles;
  }

  lemma WorkerCounts(rd: Round, st: Store, y: Yield, ws: seq<Worker>, k: nat)
    requires Owned(rd, ws) && k < |ws| && |st.shards| == rd.numShards
    requires ws[k].jobs == [] && ws[k].pc == Working
    ensures SameOutcome(rd, st, y, ws, st, y, ws[k := ws[k].(pc := Counted)])
  {
    var w := ws[k].(pc := Counted);
    assert WorkerOk(rd, ws[k]) && WorkerOk(rd, w);
    NeedlesStand(rd, st.needles, y, ws, k, w);
    assert FutureBatch(rd)(ws[k]) == multiset([]) + FutureBatch(rd)(w);
    WorkerSink(rd, st.sink, y, ws, k, w, []);
    assert st.sink + [] == st.sink;
    ShardsStand(rd, st.shards, y, ws, k, w);
  }

  lemma WorkerSends(rd: Round, st: Store, y: Yield, ws: seq<Worker>, k: nat)
    requires Owned(rd, ws) && k < |ws| && |st.shards| == rd.numShards
    requires ws[k].jobs == [] && ws[k].pc == Counted
    ensures SameOutcome(rd, st, y, ws, st.(sink := st.sink + [ws[k].batch]), y, ws[k := ws[k].(pc := Finished)])
  {
    var w := ws[k].(pc := Finished);
    assert WorkerOk(rd, ws[k]) && WorkerOk(rd, w);
    NeedlesStand(rd, st.needles, y, ws, k, w);
    assert w.batch + [] == w.batch;
    assert FutureBatch(rd)(ws[k]) == multiset([w.batch]) + FutureBatch(rd)(w);
    WorkerSink(rd, st.sink, y, ws, k, w, [w.batch]);
    ShardsStand(rd, st.shards, y, ws, k, w);
  }

  lemma WorkerKeeps(rd: Round, s: State, y: Yield, ws: seq<Worker>, k: nat)
    requires Ok(rd, s) && Enabled(rd, s, Step(k)) && Owned(rd, ws) && s.workers <= ws
    ensures var s' := StepWorker(rd, s, k);
            SameOutcome(rd, End(s), y, ws, End(s'), y, ws[k := s'.workers[k]])
  {
    var s' := StepWorker(rd, s, k);
    var w := s.workers[k];
    assert w == ws[k];
    if w.pc == Working && w.jobs != [] {
      WorkerEmits(rd, End(s), y, ws, k, rd.scenarios[w.scn].emit(rd.time, w.jobs[0], w.rng).0, s'.workers[k]);
    } else if w.pc == Working {
      WorkerCounts(rd, End(s), y, ws, k);
    } else {
      WorkerSends(rd, End(s), y, ws, k);
    }
  }

  // ----- whole rounds

  ghost predicate Invariant(rd: Round, s: State) {
    Ok(rd, s) && Owned(rd, AllWorkers(rd, s))
  }

  function AllWorkers(rd: Round, s: State): seq<Worker>
    requires Ok(rd, s)
  {
    s.workers + Rest(rd, s.main, s.base, s.volumes).workers
  }

  ghost predicate Agree(rd: Round, s: State, s': State)
    requires Ok(rd, s) && Ok(rd, s')
  {
    SameOutcome(rd, End(s), Rest(rd, s.main, s.base, s.volumes), AllWorkers(rd, s),
                    End(s'), Rest(rd, s'.main, s'.base, s'.volumes), AllWorkers(rd, s'))
  }

  lemma MainKeepsOutcome(rd: Round, s: State)
    requires Invariant(rd, s) && Enabled(rd, s, Main)
    ensures Invariant(rd, StepMain(rd, s)) && Agree(rd, s, StepMain(rd, s))
  {
    var s' := Next(rd, s, Main);
    var e := MainEffect(rd, s.main, s.base);
    var y, y' := Rest(rd, s.main, s.base, s.volumes), Rest(rd, s'.main, s'.base, s'.volumes);
    RestStep(rd, s);
    MainApplies(rd, s);
    SameWorkers(s.workers, s'.workers, y, y', e);
    EffectKeeps(rd, End(s), y', AllWorkers(rd, s), e);
    Similar(rd, End(s), Undo(e, y'), y, AllWorkers(rd, s), Apply(e, End(s)), End(s'), y');
  }

  lemma SameWorkers(ws: seq<Worker>, ws': seq<Worker>, y: Yield, y': Yield, e: Effect)
    requires y.workers == Undo(e, y').workers
    requires ws' == if e.Spawned? then ws + [e.w] else ws
    ensures ws' + y'.workers == ws + y.workers
  {
  }

  lemma Similar(rd: Round, st: Store, z: Yield, y: Yield, ws: seq<Worker>, st1: Store, st2: Store, y': Yield)
    requires SameOutcome(rd, st, z, ws, st1, y', ws)
    requires z.(steps := y.steps) == y
    requires st2.shards == st1.shards && st2.needles == st1.needles && st2.sink == st1.sink
    ensures SameOutcome(rd, st, y, ws, st2, y', ws)
  {
  }

  lemma MainApplies(rd: Round, s: State)
    requires Ok(rd, s) && Enabled(rd, s, Main)
    ensures var s', e := StepMain(rd, s), MainEffect(rd, s.main, s.base);
            && End(s').(base := s.base, volumes := s.volumes) == Apply(e, End(s))
            && s'.workers == if e.Spawned? then s.workers + [e.w] else s.workers
  {
  }

  /** Whatever thread moves, the outcome of the round stays what it was. */
  lemma StepKeepsOutcome(rd: Round, s: State, c: Choice)
    requires Invariant(rd, s) && Enabled(rd, s, c)
    ensures Invariant(rd, Next(rd, s, c)) && Agree(rd, s, Next(rd, s, c))
  {
    match c
    case Main => MainKeepsOutcome(rd, s);
    case Step(k) =>
      var s' := StepWorker(rd, s, k);
      assert AllWorkers(rd, s') == AllWorkers(rd, s)[k := s'.workers[k]];
      WorkerKeeps(rd, s, Rest(rd, s.main, s.base, s.volumes), AllWorkers(rd, s), k);
  }

  lemma {:induction false} ScheduleKeepsOutcome(rd: Round, s: State, schedule: seq<Choice>)
    requires Invariant(rd, s)
    ensures Invariant(rd, Exec(rd, s, schedule)) && Agree(rd, s, Exec(rd, s, schedule))
    decreases |schedule|
  {
    if schedule != [] {
      var s1 := if Enabled(rd, s, schedule[0]) then Next(rd, s, schedule[0]) else s;
      if Enabled(rd, s, schedule[0]) {
        StepKeepsOutcome(rd, s, schedule[0]);
      }
      ScheduleKeepsOutcome(rd, s1, schedule[1..]);
    }
  }
}
