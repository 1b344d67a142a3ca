/** A run always comes to an end: no deadlock, a bound on its steps that every schedule keeps, and an exact
    number of them when it is not cancelled. */
module RunProgress {
  import opened Rand
  import opened Volume
  import opened Rounds
  import opened Determinism
  import opened Progress
  import opened Lifecycle

  /** A step of the run itself: of its loop, or of a thread of the round in progress. */
  predicate Move(c: RunChoice) {
    c.Loop? || c.Thread?
  }

  // ----- how many there are

  /** The steps of the rounds from number `k` on, each with the step that begins it and the one that ends it,
      and the step that closes the run.  They follow from the generator and the volume states alone. */
  function RunSteps(cfg: RunCfg, k: nat, base: Rng, volumes: seq<Phase>): (n: nat)
    requires cfg.Valid() && |volumes| == |cfg.scenarios|
    ensures n > 0
    decreases if cfg.RoundAt(k).time < cfg.end then cfg.end - cfg.RoundAt(k).time else 0
  {
    var rd := cfg.RoundAt(k);
    if rd.time >= cfg.end then 1
    else
      Lifecycle.Unroll(cfg, k);
      var y := Rest(rd, AtScenario(0, 1), base, volumes);
      y.steps + Work(y.workers) + 2 + RunSteps(cfg, k + 1, y.base, y.volumes)
  }

  ghost function BodySteps(cfg: RunCfg, n: nat, s: State): nat
    requires cfg.Valid() && Ok(cfg.RoundAt(n), s)
  {
    var y := Rest(cfg.RoundAt(n), s.main, s.base, s.volumes);
    StepsLeft(cfg.RoundAt(n), s) + 1 + RunSteps(cfg, n + 1, y.base, y.volumes)
  }

  ghost function ToGo(cfg: RunCfg, n: nat, loop: LoopPc, st: Store): nat
    requires cfg.Valid() && StoreOk(cfg.RoundAt(n), st) && (loop.Body? ==> Ok(cfg.RoundAt(n), loop.round))
  {
    match loop
    case Body(s) => BodySteps(cfg, n, s)
    case Closed => 0
    case _ => RunSteps(cfg, n, st.base, st.volumes)
  }

  ghost function StepsToGo(cfg: RunCfg, r: RunState): nat
    requires Wf(cfg, r)
  {
    ToGo(cfg, |r.past| - 1, r.loop, r.past[|r.past| - 1])
  }

  /** A thread's step changes neither the generator nor the volume states that the round will end with. */
  lemma SameEnd(rd: Round, s: State, t: Choice)
    requires Ok(rd, s) && Enabled(rd, s, t)
    ensures var s' := Next(rd, s, t);
            var y, y' := Rest(rd, s.main, s.base, s.volumes), Rest(rd, s'.main, s'.base, s'.volumes);
            y.base == y'.base && y.volumes == y'.volumes
  {
    match t
    case Main => RestStep(rd, s);
    case Step(k) =>
  }

  lemma ThreadCounts(cfg: RunCfg, n: nat, s: State, t: Choice)
    requires cfg.Valid() && Ok(cfg.RoundAt(n), s) && Enabled(cfg.RoundAt(n), s, t)
    ensures BodySteps(cfg, n, Next(cfg.RoundAt(n), s, t)) == BodySteps(cfg, n, s) - 1
  {
    StepCounts(cfg.RoundAt(n), s, t);
    SameEnd(cfg.RoundAt(n), s, t);
  }

  lemma ThreadBrings(cfg: RunCfg, n: nat, s: State, t: Choice, st: Store)
    requires cfg.Valid() && Ok(cfg.RoundAt(n), s) && Enabled(cfg.RoundAt(n), s, t) && StoreOk(cfg.RoundAt(n), st)
    ensures ToGo(cfg, n, Body(Next(cfg.RoundAt(n), s, t)), st) == ToGo(cfg, n, Body(s), st) - 1
  {
    ThreadCounts(cfg, n, s, t);
  }

  lemma NothingLeftToDo(rd: Round, s: State)
    requires Ok(rd, s) && s.main.Returned?
    ensures StepsLeft(rd, s) == 0
  {
    assert AllWorkers(rd, s) == s.workers;
    assert forall k | 0 <= k < |s.workers| :: WorkerOk(rd, s.workers[k]);
    WorkDone(s.workers);
  }

  lemma LoopCounts(cfg: RunCfg, r: RunState)
    requires Wf(cfg, r) && RunEnabled(cfg, r, Loop)
    ensures StepsToGo(cfg, RunNext(cfg, r, Loop)) < StepsToGo(cfg, r)
    ensures !r.cancelled ==> StepsToGo(cfg, RunNext(cfg, r, Loop)) == StepsToGo(cfg, r) - 1
  {
    var n := |r.past| - 1;
    var rd, r' := cfg.RoundAt(n), RunNext(cfg, r, Loop);
    if r.loop.Body? {
      NothingLeftToDo(rd, r.loop.round);
    } else if r'.loop.Body? {
      var st := r.past[n];
      assert AllWorkers(rd, Begin(rd, st)) == Rest(rd, AtScenario(0, 1), st.base, st.volumes).workers;
    }
  }

  lemma ThreadNext(cfg: RunCfg, r: RunState, t: Choice)
    requires Wf(cfg, r) && RunEnabled(cfg, r, Thread(t))
    ensures RunNext(cfg, r, Thread(t)).loop == Body(Next(cfg.RoundAt(|r.past| - 1), r.loop.round, t))
    ensures RunNext(cfg, r, Thread(t)).past == r.past
  {
  }

  lemma ThreadMoves(cfg: RunCfg, r: RunState, t: Choice)
    requires Wf(cfg, r) && RunEnabled(cfg, r, Thread(t))
    ensures StepsToGo(cfg, RunNext(cfg, r, Thread(t))) == StepsToGo(cfg, r) - 1
  {
    var r', n := RunNext(cfg, r, Thread(t)), |r.past| - 1;
    ThreadNext(cfg, r, t);
    assert r'.past[n] == r.past[n];
    ThreadBrings(cfg, n, r.loop.round, t, r.past[n]);
    StepsToGoIs(cfg, r);
    StepsToGoIs(cfg, r');
  }

  lemma StepsToGoIs(cfg: RunCfg, r: RunState)
    requires Wf(cfg, r)
    ensures StepsToGo(cfg, r) == ToGo(cfg, |r.past| - 1, r.loop, r.past[|r.past| - 1])
  {
  }

  lemma OthersWait(cfg: RunCfg, r: RunState, c: RunChoice)
    requires Wf(cfg, r) && RunEnabled(cfg, r, c) && !Move(c)
    ensures StepsToGo(cfg, RunNext(cfg, r, c)) == StepsToGo(cfg, r)
  {
    var r' := RunNext(cfg, r, c);
    assert r'.past == r.past;
    assert r'.loop == if c.Start? then Head else r.loop;
  }

  /** Every move brings the end of the run nearer, by exactly one step unless it was cancelled; nothing else
      moves it away. */
  lemma MoveCounts(cfg: RunCfg, r: RunState, c: RunChoice)
    requires Wf(cfg, r) && RunEnabled(cfg, r, c)
    ensures Move(c) ==> StepsToGo(cfg, RunNext(cfg, r, c)) < StepsToGo(cfg, r)
    ensures Move(c) && !r.cancelled ==> StepsToGo(cfg, RunNext(cfg, r, c)) == StepsToGo(cfg, r) - 1
    ensures !Move(c) ==> StepsToGo(cfg, RunNext(cfg, r, c)) == StepsToGo(cfg, r)
  {
    match c
    case Thread(t) => ThreadMoves(cfg, r, t);
    case Loop => LoopCounts(cfg, r);
    case _ => OthersWait(cfg, r, c);
  }

  lemma ClosedIff(cfg: RunCfg, r: RunState)
    requires Wf(cfg, r)
    ensures r.loop.Closed? <==> StepsToGo(cfg, r) == 0
  {
  }

  // ----- every schedule

  /** The moves that a schedule makes. */
  ghost function Moves(cfg: RunCfg, r: RunState, schedule: seq<RunChoice>): nat
    requires Wf(cfg, r)
    decreases |schedule|
  {
    if schedule == [] then 0
    else
      var c := schedule[0];
      if RunEnabled(cfg, r, c) then (if Move(c) then 1 else 0) + Moves(cfg, RunNext(cfg, r, c), schedule[1..])
      else Moves(cfg, r, schedule[1..])
  }

  lemma {:induction false} StaysCancelled(cfg: RunCfg, r: RunState, schedule: seq<RunChoice>)
    requires Wf(cfg, r) && r.cancelled
    ensures RunExec(cfg, r, schedule).cancelled
    decreases |schedule|
  {
    if schedule != [] {
      var c := schedule[0];
      StaysCancelled(cfg, if RunEnabled(cfg, r, c) then RunNext(cfg, r, c) else r, schedule[1..]);
    }
  }

  lemma {:induction false} MovesPlusToGo(cfg: RunCfg, r: RunState, schedule: seq<RunChoice>)
    requires Wf(cfg, r)
    ensures Moves(cfg, r, schedule) + StepsToGo(cfg, RunExec(cfg, r, schedule)) <= StepsToGo(cfg, r)
    ensures !RunExec(cfg, r, schedule).cancelled ==>
              Moves(cfg, r, schedule) + StepsToGo(cfg, RunExec(cfg, r, schedule)) == StepsToGo(cfg, r)
    decreases |schedule|
  {
    if schedule != [] {
      var c := schedule[0];
      if RunEnabled(cfg, r, c) {
        MoveCounts(cfg, r, c);
        MovesPlusToGo(cfg, RunNext(cfg, r, c), schedule[1..]);
        if r.cancelled {
          StaysCancelled(cfg, r, schedule);
        }
      } else {
        MovesPlusToGo(cfg, r, schedule[1..]);
      }
    }
  }

  /** Termination: from no state does any schedule make more than `StepsToGo` moves, and once it has made
      that many the run is closed. */
  lemma RunTakesItsSteps(cfg: RunCfg, r: RunState, schedule: seq<RunChoice>)
    requires Wf(cfg, r)
    ensures Moves(cfg, r, schedule) <= StepsToGo(cfg, r)
    ensures Moves(cfg, r, schedule) == StepsToGo(cfg, r) ==> RunExec(cfg, r, schedule).loop.Closed?
    ensures !RunExec(cfg, r, schedule).cancelled ==>
              (RunExec(cfg, r, schedule).loop.Closed? <==> Moves(cfg, r, schedule) == StepsToGo(cfg, r))
  {
    MovesPlusToGo(cfg, r, schedule);
    ClosedIff(cfg, RunExec(cfg, r, schedule));
  }

  // ----- no deadlock, and completion

  /** A run that has started and is not over can always move ... */
  lemma SomethingMoves(cfg: RunCfg, r: RunState) returns (c: RunChoice)
    requires Wf(cfg, r) && !r.loop.NotStarted? && !r.loop.Closed?
    ensures Move(c) && RunEnabled(cfg, r, c)
  {
    if r.loop.Head? || r.loop.round.main.Returned? {
      c := Loop;
    } else {
      var t := SomeThreadMoves(cfg.RoundAt(|r.past| - 1), r.loop.round);
      c := Thread(t);
    }
  }

  /** ... and so it can be finished, without cancelling it. */
  lemma {:induction false} Finish(cfg: RunCfg, r: RunState) returns (schedule: seq<RunChoice>)
    requires Wf(cfg, r) && !r.loop.NotStarted?
    ensures forall i | 0 <= i < |schedule| :: Move(schedule[i])
    ensures var r' := RunExec(cfg, r, schedule);
            r'.loop.Closed? && r'.cancelled == r.cancelled && r'.shutdown == r.shutdown
    decreases StepsToGo(cfg, r)
  {
    if r.loop.Closed? {
      schedule := [];
    } else {
      var c := SomethingMoves(cfg, r);
      MoveCounts(cfg, r, c);
      var rest := Finish(cfg, RunNext(cfg, r, c));
      schedule := [c] + rest;
      assert schedule[1..] == rest;
    }
  }

  lemma {:induction false} RunExecAppend(cfg: RunCfg, r: RunState, a: seq<RunChoice>, b: seq<RunChoice>)
    requires Wf(cfg, r)
    ensures RunExec(cfg, r, a + b) == RunExec(cfg, RunExec(cfg, r, a), b)
    decreases |a|
  {
    if a == [] {
      assert a + b == b;
    } else {
      assert (a + b)[1..] == a[1..] + b;
      RunExecAppend(cfg, if RunEnabled(cfg, r, a[0]) then RunNext(cfg, r, a[0]) else r, a[1..], b);
    }
  }

  lemma RunExecOne(cfg: RunCfg, r: RunState, c: RunChoice)
    requires Wf(cfg, r) && RunEnabled(cfg, r, c)
    ensures RunExec(cfg, r, [c]) == RunNext(cfg, r, c)
  {
    assert [c][1..] == [] && RunExec(cfg, RunNext(cfg, r, c), []) == RunNext(cfg, r, c);
  }

  lemma ThenOne(cfg: RunCfg, r0: RunState, schedule: seq<RunChoice>, c: RunChoice)
    requires Wf(cfg, r0) && RunEnabled(cfg, RunExec(cfg, r0, schedule), c)
    ensures RunExec(cfg, r0, schedule + [c]) == RunNext(cfg, RunExec(cfg, r0, schedule), c)
  {
    RunExecAppend(cfg, r0, schedule, [c]);
    RunExecOne(cfg, RunExec(cfg, r0, schedule), c);
  }

  /** A schedule of a round as a schedule of the run. */
  function Threads(schedule: seq<Choice>): seq<RunChoice> {
    seq(|schedule|, i requires 0 <= i < |schedule| => Thread(schedule[i]))
  }

  lemma ThreadRuns(cfg: RunCfg, r: RunState, c: Choice)
    requires Wf(cfg, r) && r.loop.Body?
    ensures var rd, s := cfg.RoundAt(|r.past| - 1), r.loop.round;
            && (RunEnabled(cfg, r, Thread(c)) <==> Enabled(rd, s, c))
            && (Enabled(rd, s, c) ==> RunNext(cfg, r, Thread(c)) == r.(loop := Body(Next(rd, s, c))))
  {
  }

  lemma FirstThread(cfg: RunCfg, r: RunState, schedule: seq<Choice>)
    requires Wf(cfg, r) && r.loop.Body? && schedule != []
    ensures var rd, s, c := cfg.RoundAt(|r.past| - 1), r.loop.round, schedule[0];
            RunExec(cfg, r, Threads(schedule))
            == RunExec(cfg, r.(loop := Body(if Enabled(rd, s, c) then Next(rd, s, c) else s)), Threads(schedule[1..]))
  {
    assert Threads(schedule)[0] == Thread(schedule[0]) && Threads(schedule)[1..] == Threads(schedule[1..]);
    ThreadRuns(cfg, r, schedule[0]);
  }

  lemma {:induction false} ThreadsRun(cfg: RunCfg, r: RunState, schedule: seq<Choice>)
    requires Wf(cfg, r) && r.loop.Body?
    ensures RunExec(cfg, r, Threads(schedule))
         == r.(loop := Body(Exec(cfg.RoundAt(|r.past| - 1), r.loop.round, schedule)))
    decreases |schedule|
  {
    if schedule != [] {
      var rd, s, c := cfg.RoundAt(|r.past| - 1), r.loop.round, schedule[0];
      FirstThread(cfg, r, schedule);
      ThreadsRun(cfg, r.(loop := Body(if Enabled(rd, s, c) then Next(rd, s, c) else s)), schedule[1..]);
    }
  }

  /** A run that is not cancelled makes the same number of moves on every schedule, is over exactly when it has
      made them, and then has made one round per interval of the simulated time; and once started it can
      always get there. */
  lemma UncancelledRunIsComplete(cfg: RunCfg, schedule: seq<RunChoice>)
    requires cfg.Valid() && !RunExec(cfg, Boot(cfg), schedule).cancelled
    ensures var r, n := RunExec(cfg, Boot(cfg), schedule), RunSteps(cfg, 0, cfg.initial.base, cfg.initial.volumes);
            && Moves(cfg, Boot(cfg), schedule) <= n
            && (r.loop.Closed? <==> Moves(cfg, Boot(cfg), schedule) == n)
            && (r.loop.Closed? ==> |r.past| - 1 == RoundsBetween(cfg.start, cfg.end, cfg.interval))
    ensures !RunExec(cfg, Boot(cfg), schedule).loop.NotStarted? ==>
              exists more :: CompletesTheRun(cfg, schedule + more)
  {
    RunTakesItsSteps(cfg, Boot(cfg), schedule);
    var r := RunExec(cfg, Boot(cfg), schedule);
    if r.loop.Closed? {
      ClosedRunIsComplete(cfg, schedule);
    }
    if !r.loop.NotStarted? {
      var more := Finish(cfg, r);
      RunExecAppend(cfg, Boot(cfg), schedule, more);
      ClosedRunIsComplete(cfg, schedule + more);
      assert CompletesTheRun(cfg, schedule + more);
    }
  }

  ghost predicate CompletesTheRun(cfg: RunCfg, schedule: seq<RunChoice>)
    requires cfg.Valid()
  {
    var r := RunExec(cfg, Boot(cfg), schedule);
    r.loop.Closed? && !r.cancelled && |r.past| - 1 == RoundsBetween(cfg.start, cfg.end, cfg.interval)
  }

  lemma ClosedRunIsComplete(cfg: RunCfg, schedule: seq<RunChoice>)
    requires cfg.Valid()
    requires var r := RunExec(cfg, Boot(cfg), schedule); r.loop.Closed? && !r.cancelled
    ensures CompletesTheRun(cfg, schedule)
  {
    BootInv(cfg);
    RunKeeps(cfg, Boot(cfg), schedule);
    var r := RunExec(cfg, Boot(cfg), schedule);
    var n := |r.past| - 1;
    if n > 0 {
      assert cfg.RoundAt(n - 1).time < cfg.end;
    }
    RoundCount(cfg.start, cfg.end, cfg.interval, n);
  }

  /** A shutdown of a run that has started can always be completed, by calling it if it has not been called,
      finishing the run and merging; it then has waited for what it found when it was called. */
  lemma ShutdownCompletes(cfg: RunCfg, r: RunState) returns (schedule: seq<RunChoice>)
    requires Wf(cfg, r) && !r.loop.NotStarted? && !r.shutdown.Merged?
    ensures var r' := RunExec(cfg, r, schedule);
            && r'.loop.Closed? && r'.shutdown.Merged?
            && r'.shutdown.done == if r.shutdown.NotCalled? then ClosedByRun else r.shutdown.done
  {
    var call := if r.shutdown.NotCalled? then [CallShutdown] else [];
    if r.shutdown.NotCalled? {
      RunExecOne(cfg, r, CallShutdown);
    }
    var r1 := RunExec(cfg, r, call);
    var finish := Finish(cfg, r1);
    var r2 := RunExec(cfg, r1, finish);
    RunExecOne(cfg, r2, Merge);
    schedule := call + finish + [Merge];
    RunExecAppend(cfg, r, call, finish);
    RunExecAppend(cfg, r, call + finish, [Merge]);
  }
}
