/** Nothing is lost and nothing is counted twice, at any moment of any schedule. */
module Conservation {
  import opened Records
  import opened Bags
  import opened Rounds

  /** The records of a worker's batch until the batch is sent. */
  function InFlight(w: Worker): multiset<LogRecord> {
    if w.pc == Finished then multiset{} else multiset(w.batch)
  }

  function MainInFlight(pc: MainPc): multiset<LogRecord> {
    match pc
    case Emitting(_, _, _, batch) => multiset(batch)
    case Adding(_, _, batch, _) => multiset(batch)
    case Sending(_, _, batch) => multiset(batch)
    case _ => multiset{}
  }

  function NeedlesIn(recs: seq<LogRecord>): multiset<string> {
    Sum(recs, NeedleBag)
  }

  /** The records in the shards are those sent and those still in a batch, each once, and the needle
      counters count the replaced records among them. */
  ghost predicate Balanced(s: State) {
    && Sum(s.shards, Bag) == Sum(s.sink, Bag) + (Sum(s.workers, InFlight) + MainInFlight(s.main))
    && s.needles == Sum(s.shards, NeedlesIn)
  }

  ghost predicate StoreBalanced(st: Store) {
    && Sum(st.shards, Bag) == Sum(st.sink, Bag)
    && st.needles == Sum(st.shards, NeedlesIn)
  }

  /** Recording one more record in a shard. */
  lemma NoteShards(shards: seq<seq<LogRecord>>, k: nat, rec: LogRecord)
    requires k < |shards|
    ensures var shards' := shards[k := shards[k] + [rec]];
            && Sum(shards', Bag) == Sum(shards, Bag) + multiset{rec}
            && Sum(shards', NeedlesIn) == Sum(shards, NeedlesIn) + NeedleBag(rec)
  {
    var x := shards[k] + [rec];
    SumUpdate(shards, k, x, Bag);
    assert Bag(x) == multiset{rec} + Bag(shards[k]);
    assert Sum(shards[k := x], Bag) + Bag(shards[k]) == (Sum(shards, Bag) + multiset{rec}) + Bag(shards[k]);
    Cancel(Sum(shards[k := x], Bag), Sum(shards, Bag) + multiset{rec}, Bag(shards[k]));
    SumUpdate(shards, k, x, NeedlesIn);
    SumSnoc(shards[k], rec, NeedleBag);
    assert Sum(shards[k := x], NeedlesIn) + NeedlesIn(shards[k])
        == (Sum(shards, NeedlesIn) + NeedleBag(rec)) + NeedlesIn(shards[k]);
    Cancel(Sum(shards[k := x], NeedlesIn), Sum(shards, NeedlesIn) + NeedleBag(rec), NeedlesIn(shards[k]));
  }

  lemma Enters<T>(all: multiset<T>, sent: multiset<T>, workers: multiset<T>, main: multiset<T>, e: multiset<T>)
    requires all == sent + (workers + main)
    ensures all + e == sent + (workers + (main + e)) == sent + ((workers + e) + main)
  {
  }

  lemma Leaves<T>(all: multiset<T>, sent: multiset<T>, workers: multiset<T>, main: multiset<T>, e: multiset<T>)
    requires all == sent + ((workers + e) + main)
    ensures all == (sent + e) + (workers + main)
  {
  }

  lemma MainEmitBalance(s: State, rec: LogRecord, s': State)
    requires Balanced(s) && |s.shards| > 0
    requires s'.shards == s.shards[0 := s.shards[0] + [rec]] && s'.needles == s.needles + NeedleBag(rec)
    requires s'.sink == s.sink && s'.workers == s.workers
    requires MainInFlight(s'.main) == MainInFlight(s.main) + multiset{rec}
    ensures Balanced(s')
  {
    NoteShards(s.shards, 0, rec);
    Enters(Sum(s.shards, Bag), Sum(s.sink, Bag), Sum(s.workers, InFlight), MainInFlight(s.main), multiset{rec});
  }

  lemma MainSendBalance(s: State, s': State)
    requires Balanced(s) && s.main.Sending?
    requires s' == s.(sink := s.sink + [s.main.batch], main := s'.main) && s'.main.AtScenario?
    ensures Balanced(s')
  {
    SumSnoc(s.sink, s.main.batch, Bag);
    var ws := Sum(s.workers, InFlight);
    assert ws + Bag(s.main.batch) == (ws + Bag(s.main.batch)) + multiset{};
    Leaves(Sum(s.shards, Bag), Sum(s.sink, Bag), ws, multiset{}, Bag(s.main.batch));
  }

  lemma SpawnBalance(s: State, w: Worker, s': State)
    requires Balanced(s) && w.batch == []
    requires s' == s.(base := s'.base, workers := s.workers + [w], main := s'.main)
    requires MainInFlight(s'.main) == MainInFlight(s.main)
    ensures Balanced(s')
  {
    SumSnoc(s.workers, w, InFlight);
    assert Sum(s.workers, InFlight) + multiset{} == Sum(s.workers, InFlight);
  }

  lemma QuietBalance(s: State, s': State)
    requires Balanced(s) && MainInFlight(s'.main) == MainInFlight(s.main)
    requires s'.shards == s.shards && s'.needles == s.needles && s'.sink == s.sink && s'.workers == s.workers
    ensures Balanced(s')
  {
  }

  lemma EmittingBalance(rd: Round, s: State)
    requires Ok(rd, s) && Balanced(s) && s.main.Emitting?
    ensures Balanced(StepMain(rd, s))
  {
    var s' := StepMain(rd, s);
    if s.main.jobs == [] {
      QuietBalance(s, s');
    } else {
      var rec := rd.scenarios[s.main.i].emit(rd.time, s.main.jobs[0], s.base).0;
      assert multiset(s.main.batch + [rec]) == multiset(s.main.batch) + multiset{rec};
      MainEmitBalance(s, rec, s');
    }
  }

  lemma AtScenarioBalance(rd: Round, s: State)
    requires Ok(rd, s) && Enabled(rd, s, Main) && Balanced(s) && s.main.AtScenario?
    ensures Balanced(StepMain(rd, s))
  {
    var s' := StepMain(rd, s);
    assert MainInFlight(s'.main) == multiset{};
    QuietBalance(s, s');
  }

  lemma SpawningBalance(rd: Round, s: State)
    requires Ok(rd, s) && Balanced(s) && s.main.Spawning?
    ensures Balanced(StepMain(rd, s))
  {
    var s' := StepMain(rd, s);
    if s.main.wi < rd.scenarios[s.main.i].concurrency {
      SpawnBalance(s, s'.workers[|s.workers|], s');
    } else {
      QuietBalance(s, s');
    }
  }

  lemma MainKeepsBalance(rd: Round, s: State)
    requires Ok(rd, s) && Enabled(rd, s, Main) && Balanced(s)
    ensures Balanced(StepMain(rd, s))
  {
    match s.main
    case Emitting(_, _, _, _) => EmittingBalance(rd, s);
    case Sending(_, _, _) => MainSendBalance(s, StepMain(rd, s));
    case Spawning(_, _, _, _) => SpawningBalance(rd, s);
    case AtScenario(_, _) => AtScenarioBalance(rd, s);
    case Adding(_, _, _, _) => QuietBalance(s, StepMain(rd, s));
    case Returned =>
  }

  lemma WorkerEmitBalance(s: State, k: nat, shard: nat, rec: LogRecord, w: Worker, s': State)
    requires Balanced(s) && k < |s.workers| && shard < |s.shards|
    requires s'.shards == s.shards[shard := s.shards[shard] + [rec]] && s'.needles == s.needles + NeedleBag(rec)
    requires s'.sink == s.sink && s'.workers == s.workers[k := w] && s'.main == s.main
    requires InFlight(w) == InFlight(s.workers[k]) + multiset{rec}
    ensures Balanced(s')
  {
    NoteShards(s.shards, shard, rec);
    SumUpdate(s.workers, k, w, InFlight);
    var before, after, mine := Sum(s.workers, InFlight), Sum(s'.workers, InFlight), InFlight(s.workers[k]);
    assert after + mine == (before + multiset{rec}) + mine;
    Cancel(after, before + multiset{rec}, mine);
    Enters(Sum(s.shards, Bag), Sum(s.sink, Bag), before, MainInFlight(s.main), multiset{rec});
  }

  lemma WorkerSendBalance(s: State, k: nat, s': State)
    requires Balanced(s) && k < |s.workers| && s.workers[k].pc == Counted
    requires s' == s.(sink := s.sink + [s.workers[k].batch], workers := s.workers[k := s.workers[k].(pc := Finished)])
    ensures Balanced(s')
  {
    var w := s.workers[k];
    SumSnoc(s.sink, w.batch, Bag);
    SumUpdate(s.workers, k, w.(pc := Finished), InFlight);
    var after := Sum(s'.workers, InFlight);
    assert Sum(s.workers, InFlight) + multiset{} == Sum(s.workers, InFlight);
    Leaves(Sum(s.shards, Bag), Sum(s.sink, Bag), after, MainInFlight(s.main), multiset(w.batch));
  }

  lemma WorkerCountBalance(s: State, k: nat, s': State)
    requires Balanced(s) && k < |s.workers| && s.workers[k].pc == Working
    requires s' == s.(total := s'.total, workers := s.workers[k := s.workers[k].(pc := Counted)])
    ensures Balanced(s')
  {
    SumUpdate(s.workers, k, s.workers[k].(pc := Counted), InFlight);
    Cancel(Sum(s'.workers, InFlight), Sum(s.workers, InFlight), InFlight(s.workers[k]));
  }

  lemma WorkerKeepsBalance(rd: Round, s: State, k: nat)
    requires Ok(rd, s) && Enabled(rd, s, Step(k)) && Balanced(s)
    ensures Balanced(StepWorker(rd, s, k))
  {
    var s' := StepWorker(rd, s, k);
    var w := s.workers[k];
    assert WorkerOk(rd, w);
    if w.pc == Working && w.jobs != [] {
      var rec := rd.scenarios[w.scn].emit(rd.time, w.jobs[0], w.rng).0;
      WorkerEmitBalance(s, k, w.shard, rec, s'.workers[k], s');
    } else if w.pc == Counted {
      WorkerSendBalance(s, k, s');
    } else {
      WorkerCountBalance(s, k, s');
    }
  }

  lemma {:induction false} ScheduleKeepsBalance(rd: Round, s: State, schedule: seq<Choice>)
    requires Ok(rd, s) && Balanced(s)
    ensures Balanced(Exec(rd, s, schedule))
    decreases |schedule|
  {
    if schedule != [] {
      var c := schedule[0];
      if Enabled(rd, s, c) {
        match c {
          case Main => MainKeepsBalance(rd, s);
          case Step(k) => WorkerKeepsBalance(rd, s, k);
        }
        ScheduleKeepsBalance(rd, Next(rd, s, c), schedule[1..]);
      } else {
        ScheduleKeepsBalance(rd, s, schedule[1..]);
      }
    }
  }

  lemma {:induction false} NothingInFlight(ws: seq<Worker>)
    requires AllFinished(ws)
    ensures Sum(ws, InFlight) == multiset{}
  {
    if ws != [] {
      NothingInFlight(ws[..|ws| - 1]);
    }
  }

  /** A completed round leaves the books balanced: the records in the shards are the records sent. */
  lemma RoundConserves(rd: Round, st: Store, schedule: seq<Choice>)
    requires StoreOk(rd, st) && StoreBalanced(st)
    requires Exec(rd, Begin(rd, st), schedule).main.Returned?
    ensures StoreBalanced(End(Exec(rd, Begin(rd, st), schedule)))
  {
    ScheduleKeepsBalance(rd, Begin(rd, st), schedule);
    NothingInFlight(Exec(rd, Begin(rd, st), schedule).workers);
  }
}
