/** The number of records a round reports.

The main thread adds a sequential batch to the shared total with a plain load and store, while workers
add theirs atomically, so a worker's addition between the load and the store is lost.  The total is
exact on every schedule exactly when no sequential scenario comes after a concurrent one. */
module RoundTotal {
  import opened Rand
  import opened Records
  import opened Bags
  import opened Volume
  import opened Rounds
  import opened Progress
  import Partition

  /** A sequential scenario that emits. */
  predicate Sequential(s: Scenario) {
    s.Active() && s.concurrency == 0
  }

  /** A concurrent scenario whose workers have instances to simulate. */
  predicate Concurrent(s: Scenario) {
    s.Active() && s.concurrency > 0 && s.scale / s.concurrency > 0
  }

  predicate SequentialFirst(scns: seq<Scenario>) {
    forall i, j | 0 <= i < j < |scns| :: !(Concurrent(scns[i]) && Sequential(scns[j]))
  }

  // ----- records added to the total so far

  function BookedBag(w: Worker): multiset<LogRecord> {
    if w.pc == Counted then multiset(w.batch) else multiset{}
  }

  /** The records in batches whose size has been added to the total. */
  function Booked(s: State): nat {
    |Sum(s.sink, Bag)| + (if s.main.Sending? then |s.main.batch| else 0) + |Sum(s.workers, BookedBag)|
  }

  /** How far the total falls short of them, for a round that began with `sent` records in the sink. */
  function Lost(s: State, sent: nat): int {
    Booked(s) - sent - s.total
  }

  lemma WorkerBooks(rd: Round, s: State, k: nat)
    requires Ok(rd, s) && Enabled(rd, s, Step(k))
    ensures var s', w := StepWorker(rd, s, k), s.workers[k];
            && Booked(s') == Booked(s) + (if w.pc == Working && w.jobs == [] then |w.batch| else 0)
            && s'.total == s.total + (if w.pc == Working && w.jobs == [] then |w.batch| else 0)
  {
    var s', w := StepWorker(rd, s, k), s.workers[k];
    SizeUpdate(s.workers, k, s'.workers[k], BookedBag);
    assert |BookedBag(w)| == if w.pc == Counted then |w.batch| else 0;
    assert |BookedBag(s'.workers[k])| == if s'.workers[k].pc == Counted then |w.batch| else 0;
    if w.pc == Counted {
      SizeSnoc(s.sink, w.batch, Bag);
      assert |Bag(w.batch)| == |w.batch|;
    }
  }

  lemma MainBooks(rd: Round, s: State)
    requires Ok(rd, s) && Enabled(rd, s, Main)
    ensures var s' := StepMain(rd, s);
            && Booked(s') == Booked(s) + (if s.main.Adding? then |s.main.batch| else 0)
            && s'.total == if s.main.Adding? then s.main.seen + |s.main.batch| else s.total
  {
    var s' := StepMain(rd, s);
    if s.main.Sending? {
      SizeSnoc(s.sink, s.main.batch, Bag);
    } else if s.main.Spawning? && s.main.wi < rd.scenarios[s.main.i].concurrency {
      SizeSnoc(s.workers, s'.workers[|s.workers|], BookedBag);
    }
  }

  ghost predicate Bounded(s: State) {
    s.main.Adding? ==> s.main.seen <= s.total
  }

  /** An addition once lost stays lost. */
  lemma LossPersists(rd: Round, s: State, c: Choice, sent: nat)
    requires Ok(rd, s) && Enabled(rd, s, c) && Bounded(s)
    ensures Bounded(Next(rd, s, c)) && Lost(Next(rd, s, c), sent) >= Lost(s, sent)
  {
    match c
    case Main => MainBooks(rd, s);
    case Step(k) => WorkerBooks(rd, s, k);
  }

  lemma {:induction false} LossPersistsToTheEnd(rd: Round, s: State, schedule: seq<Choice>, sent: nat)
    requires Ok(rd, s) && Bounded(s)
    ensures Bounded(Exec(rd, s, schedule)) && Lost(Exec(rd, s, schedule), sent) >= Lost(s, sent)
    decreases |schedule|
  {
    if schedule != [] {
      var c := schedule[0];
      if Enabled(rd, s, c) {
        LossPersists(rd, s, c, sent);
        LossPersistsToTheEnd(rd, Next(rd, s, c), schedule[1..], sent);
      } else {
        LossPersistsToTheEnd(rd, s, schedule[1..], sent);
      }
    }
  }

  lemma {:induction false} NoneBooked(ws: seq<Worker>)
    requires AllFinished(ws)
    ensures Sum(ws, BookedBag) == multiset{}
  {
    if ws != [] {
      NoneBooked(ws[..|ws| - 1]);
    }
  }

  // ----- the total is exact when sequential scenarios come first

  ghost predicate SequentialAhead(rd: Round, pc: MainPc) {
    !pc.Returned? && exists j :: pc.i <= j < |rd.scenarios| && Sequential(rd.scenarios[j])
  }

  ghost predicate Idle(ws: seq<Worker>) {
    forall k | 0 <= k < |ws| :: ws[k].jobs == [] && ws[k].batch == []
  }

  ghost predicate Exact(rd: Round, s: State, sent: nat) {
    && Ok(rd, s)
    && Lost(s, sent) == 0
    && (SequentialAhead(rd, s.main) ==> Idle(s.workers))
    && PcExact(rd, s)
  }

  ghost predicate PcExact(rd: Round, s: State)
    requires Ok(rd, s)
  {
    && (s.main.Emitting? || s.main.Adding? ==> Sequential(rd.scenarios[s.main.i]))
    && (s.main.Spawning? ==> rd.scenarios[s.main.i].Active())
    && (s.main.Adding? ==> s.main.seen == s.total)
  }

  lemma AheadStep(rd: Round, s: State)
    requires Ok(rd, s) && PcExact(rd, s) && SequentialFirst(rd.scenarios) && Enabled(rd, s, Main)
    requires SequentialAhead(rd, StepMain(rd, s).main)
    ensures SequentialAhead(rd, s.main)
    ensures Idle(s.workers) ==> Idle(StepMain(rd, s).workers)
  {
    var s' := StepMain(rd, s);
    var j :| s'.main.i <= j < |rd.scenarios| && Sequential(rd.scenarios[j]);
    assert s.main.i <= j;
    if s.main.Spawning? {
      assert !Concurrent(rd.scenarios[s.main.i]);
      if Idle(s.workers) {
        IdleSpawn(rd, s);
      }
    }
  }

  lemma PcStep(rd: Round, s: State)
    requires Ok(rd, s) && PcExact(rd, s) && Enabled(rd, s, Main)
    ensures PcExact(rd, StepMain(rd, s))
  {
  }

  lemma ExactMain(rd: Round, s: State, sent: nat)
    requires Exact(rd, s, sent) && SequentialFirst(rd.scenarios) && Enabled(rd, s, Main)
    ensures Exact(rd, StepMain(rd, s), sent)
  {
    var s' := Next(rd, s, Main);
    assert Lost(s', sent) == 0 by {
      MainBooks(rd, s);
    }
    assert PcExact(rd, s') by {
      PcStep(rd, s);
    }
    assert SequentialAhead(rd, s'.main) ==> Idle(s'.workers) by {
      if SequentialAhead(rd, s'.main) {
        AheadStep(rd, s);
      }
    }
  }

  lemma IdleSpawn(rd: Round, s: State)
    requires Ok(rd, s) && s.main.Spawning? && rd.scenarios[s.main.i].Active() && !Concurrent(rd.scenarios[s.main.i])
    requires Idle(s.workers)
    ensures Idle(StepMain(rd, s).workers)
  {
  }

  lemma ExactWorker(rd: Round, s: State, k: nat, sent: nat)
    requires Exact(rd, s, sent) && Enabled(rd, s, Step(k))
    ensures Exact(rd, StepWorker(rd, s, k), sent)
  {
    var s' := Next(rd, s, Step(k));
    assert s'.main == s.main;
    assert Lost(s', sent) == 0 by {
      WorkerBooks(rd, s, k);
    }
    if SequentialAhead(rd, s.main) {
      IdleWorker(rd, s, k);
    }
  }

  lemma IdleWorker(rd: Round, s: State, k: nat)
    requires Ok(rd, s) && Enabled(rd, s, Step(k)) && Idle(s.workers)
    ensures Idle(StepWorker(rd, s, k).workers) && StepWorker(rd, s, k).total == s.total
  {
  }

  lemma ExactStep(rd: Round, s: State, c: Choice, sent: nat)
    requires Exact(rd, s, sent) && SequentialFirst(rd.scenarios) && Enabled(rd, s, c)
    ensures Exact(rd, Next(rd, s, c), sent)
  {
    match c
    case Main => ExactMain(rd, s, sent);
    case Step(k) => ExactWorker(rd, s, k, sent);
  }

  lemma {:induction false} ExactSchedule(rd: Round, s: State, schedule: seq<Choice>, sent: nat)
    requires Exact(rd, s, sent) && SequentialFirst(rd.scenarios)
    ensures Exact(rd, Exec(rd, s, schedule), sent)
    decreases |schedule|
  {
    if schedule != [] {
      var c := schedule[0];
      if Enabled(rd, s, c) {
        ExactStep(rd, s, c, sent);
        ExactSchedule(rd, Next(rd, s, c), schedule[1..], sent);
      } else {
        ExactSchedule(rd, s, schedule[1..], sent);
      }
    }
  }

  // ----- and loses an addition on some schedule otherwise

  /** Scenarios that emit when they are active, as the receiver's do. */
  ghost predicate Lively(s: Scenario) {
    s.Active() ==>
      && (forall t: int, ph: Phase, r: Rng :: s.plan(t, ph, r).1 >= 1)
      && (forall n: int, idx: nat :: n >= 1 ==> s.perInstance(n, idx) >= 1)
  }

  lemma WorkerHasJobs(s: Scenario, logs: int)
    requires Concurrent(s) && Lively(s) && logs >= 1
    ensures WorkerJobs(s, logs, 0, s.scale / s.concurrency) != []
  {
    var n := s.scale / s.concurrency;
    Partition.InstanceInRange(n - 1, 0, s.scale, s.concurrency);
    assert Times(Partition.Instance(n - 1, 0, s.scale, s.concurrency),
                 s.perInstance(logs, Partition.Instance(n - 1, 0, s.scale, s.concurrency))) != [];
  }

  /** Some schedule leads from one state to the other. */
  ghost predicate Reaches(rd: Round, s: State, s': State) {
    Ok(rd, s) && Ok(rd, s') && exists schedule :: Exec(rd, s, schedule) == s'
  }

  lemma ReachesStep(rd: Round, s: State, c: Choice, s': State)
    requires Ok(rd, s) && Enabled(rd, s, c) && Reaches(rd, Next(rd, s, c), s')
    ensures Reaches(rd, s, s')
  {
    var rest :| Exec(rd, Next(rd, s, c), rest) == s';
    assert ([c] + rest)[1..] == rest;
    assert Exec(rd, s, [c] + rest) == s';
  }

  lemma ReachesItself(rd: Round, s: State)
    requires Ok(rd, s)
    ensures Reaches(rd, s, s)
  {
    assert Exec(rd, s, []) == s;
  }

  lemma ReachesOn(rd: Round, a: State, b: State, c: State)
    requires Reaches(rd, a, b) && Reaches(rd, b, c)
    ensures Reaches(rd, a, c)
  {
    var p :| Exec(rd, a, p) == b;
    var q :| Exec(rd, b, q) == c;
    ExecAppend(rd, a, p, q);
  }

  lemma LossReaches(rd: Round, a: State, b: State, sent: nat)
    requires Reaches(rd, a, b) && Bounded(a)
    ensures Bounded(b) && Lost(b, sent) >= Lost(a, sent)
  {
    var p :| Exec(rd, a, p) == b;
    LossPersistsToTheEnd(rd, a, p, sent);
  }

  /** Only the main thread moves, until it reaches scenario `m`. */
  lemma {:induction false} DriveTo(rd: Round, s: State, m: nat) returns (s': State)
    requires Ok(rd, s) && !s.main.Returned? && m < |rd.scenarios|
    requires s.main.i < m || (s.main.i == m && s.main.AtScenario?)
    ensures Reaches(rd, s, s')
    ensures s'.main.AtScenario? && s'.main.i == m && s.workers <= s'.workers
    decreases StepsLeft(rd, s)
  {
    if s.main.i == m {
      s' := s;
      ReachesItself(rd, s);
    } else {
      StepCounts(rd, s, Main);
      s' := DriveTo(rd, StepMain(rd, s), m);
      ReachesStep(rd, s, Main, s');
    }
  }

  /** Only the main thread moves, until it has loaded the total. */
  lemma {:induction false} DriveLoad(rd: Round, s: State) returns (s': State)
    requires Ok(rd, s) && s.main.Emitting?
    ensures Reaches(rd, s, s')
    ensures s'.main.Adding? && s'.main.seen == s'.total && s.workers == s'.workers
    decreases |s.main.jobs|
  {
    var s1 := Next(rd, s, Main);
    if s.main.jobs == [] {
      s' := s1;
      ReachesItself(rd, s1);
    } else {
      s' := DriveLoad(rd, s1);
    }
    ReachesStep(rd, s, Main, s');
  }

  /** Only worker `k` moves, until it has added its batch. */
  lemma {:induction false} DriveAdd(rd: Round, s: State, k: nat) returns (s': State)
    requires Ok(rd, s) && k < |s.workers| && s.workers[k].pc == Working
    ensures Reaches(rd, s, s')
    ensures s'.main == s.main && s'.total == s.total + |s.workers[k].batch| + |s.workers[k].jobs|
    decreases |s.workers[k].jobs|
  {
    var s1 := Next(rd, s, Step(k));
    if s.workers[k].jobs == [] {
      s' := s1;
      ReachesItself(rd, s1);
    } else {
      s' := DriveAdd(rd, s1, k);
    }
    ReachesStep(rd, s, Step(k), s');
  }

  /** From scenario `i` to a state in which one of its workers has yet to start. */
  lemma DriveSpawn(rd: Round, s: State) returns (s': State)
    requires Ok(rd, s) && s.main.AtScenario? && s.main.i < |rd.scenarios|
    requires Concurrent(rd.scenarios[s.main.i]) && Lively(rd.scenarios[s.main.i])
    ensures Reaches(rd, s, s')
    ensures s'.main.Spawning? && s'.main.i == s.main.i && |s'.workers| > |s.workers|
    ensures s'.workers[|s.workers|].pc == Working && s'.workers[|s.workers|].jobs != []
  {
    var s1 := Next(rd, s, Main);
    s' := Next(rd, s1, Main);
    WorkerHasJobs(rd.scenarios[s.main.i], s1.main.logs);
    ReachesItself(rd, s');
    ReachesStep(rd, s1, Main, s');
    ReachesStep(rd, s, Main, s');
  }

  /** A worker's addition falls between the main thread's load and its store. */
  lemma OverwriteAddition(rd: Round, s: State, k: nat) returns (s': State)
    requires Ok(rd, s) && s.main.Emitting? && k < |s.workers| && s.workers[k].pc == Working && s.workers[k].jobs != []
    ensures Reaches(rd, s, s')
    ensures forall sent: nat :: Lost(s', sent) > Lost(s, sent)
  {
    var s1 := DriveLoad(rd, s);
    var s2 := DriveAdd(rd, s1, k);
    s' := Next(rd, s2, Main);
    MainBooks(rd, s2);
    ReachesItself(rd, s');
    ReachesStep(rd, s2, Main, s');
    ReachesOn(rd, s1, s2, s');
    ReachesOn(rd, s, s1, s');
    forall sent: nat
      ensures Lost(s', sent) > Lost(s, sent)
    {
      LossReaches(rd, s, s1, sent);
      LossReaches(rd, s1, s2, sent);
    }
  }

  lemma LoseAnAddition(rd: Round, st: Store, i: nat, j: nat) returns (s: State)
    requires StoreOk(rd, st) && i < j < |rd.scenarios|
    requires Concurrent(rd.scenarios[i]) && Sequential(rd.scenarios[j]) && Lively(rd.scenarios[i])
    ensures Reaches(rd, Begin(rd, st), s)
    ensures s.main.Returned? && Lost(s, |Sum(st.sink, Bag)|) > 0
  {
    var sent := |Sum(st.sink, Bag)|;
    var s0 := Begin(rd, st);
    var s1 := DriveTo(rd, s0, i);
    var s2 := DriveSpawn(rd, s1);
    var s3 := DriveTo(rd, s2, j);
    var s4 := Next(rd, s3, Main);
    ReachesItself(rd, s4);
    ReachesStep(rd, s3, Main, s4);
    ReachesOn(rd, s2, s3, s4);
    ReachesOn(rd, s1, s2, s4);
    ReachesOn(rd, s0, s1, s4);
    LossReaches(rd, s0, s4, sent);
    assert s4.workers[|s1.workers|] == s2.workers[|s1.workers|];
    var s5 := OverwriteAddition(rd, s4, |s1.workers|);
    LossReaches(rd, s4, s5, sent);
    var schedule := Complete(rd, s5);
    s := Exec(rd, s5, schedule);
    ReachesOn(rd, s4, s5, s);
    ReachesOn(rd, s0, s4, s);
    LossReaches(rd, s5, s, sent);
  }

  ghost predicate TotalExact(rd: Round, st: Store, schedule: seq<Choice>)
    requires StoreOk(rd, st)
  {
    var s := Exec(rd, Begin(rd, st), schedule);
    s.main.Returned? ==> s.total == |Sum(s.sink, Bag)| - |Sum(st.sink, Bag)|
  }

  /** The total is exact on a schedule if sequential scenarios come first ... */
  lemma SequentialFirstIsExact(rd: Round, st: Store, schedule: seq<Choice>)
    requires StoreOk(rd, st) && SequentialFirst(rd.scenarios)
    ensures TotalExact(rd, st, schedule)
  {
    ExactSchedule(rd, Begin(rd, st), schedule, |Sum(st.sink, Bag)|);
    var s := Exec(rd, Begin(rd, st), schedule);
    if s.main.Returned? {
      NoneBooked(s.workers);
    }
  }

  /** ... and never too great. */
  lemma TotalNeverTooGreat(rd: Round, st: Store, schedule: seq<Choice>)
    requires StoreOk(rd, st) && Exec(rd, Begin(rd, st), schedule).main.Returned?
    ensures var s := Exec(rd, Begin(rd, st), schedule);
            s.total <= |Sum(s.sink, Bag)| - |Sum(st.sink, Bag)|
  {
    LossPersistsToTheEnd(rd, Begin(rd, st), schedule, |Sum(st.sink, Bag)|);
    NoneBooked(Exec(rd, Begin(rd, st), schedule).workers);
  }

  /** A schedule on which it is too small, if some sequential scenario comes after a concurrent one. */
  lemma TotalTooSmall(rd: Round, st: Store) returns (schedule: seq<Choice>)
    requires StoreOk(rd, st) && !SequentialFirst(rd.scenarios)
    requires forall i | 0 <= i < |rd.scenarios| :: Lively(rd.scenarios[i])
    ensures var s := Exec(rd, Begin(rd, st), schedule);
            s.main.Returned? && s.total < |Sum(s.sink, Bag)| - |Sum(st.sink, Bag)|
  {
    var i, j :| 0 <= i < j < |rd.scenarios| && Concurrent(rd.scenarios[i]) && Sequential(rd.scenarios[j]);
    var s := LoseAnAddition(rd, st, i, j);
    NoneBooked(s.workers);
    schedule :| Exec(rd, Begin(rd, st), schedule) == s;
  }

  /** The round's total is the number of records it sent, on every schedule, exactly when no sequential
      scenario comes after a concurrent one. */
  lemma TotalExactIffSequentialFirst(rd: Round, st: Store)
    requires StoreOk(rd, st)
    requires forall i | 0 <= i < |rd.scenarios| :: Lively(rd.scenarios[i])
    ensures (forall schedule :: TotalExact(rd, st, schedule)) <==> SequentialFirst(rd.scenarios)
  {
    if SequentialFirst(rd.scenarios) {
      forall schedule
        ensures TotalExact(rd, st, schedule)
      {
        SequentialFirstIsExact(rd, st, schedule);
      }
    } else {
      var schedule := TotalTooSmall(rd, st);
      assert !TotalExact(rd, st, schedule);
    }
  }
}
