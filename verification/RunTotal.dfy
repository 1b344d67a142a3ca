/** The number of records that a run reports when it is shut down: the totals of its rounds together. */
module RunTotal {
  import opened Bags
  import opened Rounds
  import opened RoundTotal
  import opened Lifecycle
  import opened RunProgress

  /** The number of records sent. */
  function Sent(st: Store): nat {
    |Sum(st.sink, Bag)|
  }

  lemma SentIsFlat(st: Store)
    ensures Sent(st) == |Flatten(st.sink)|
  {
    FlattenBag(st.sink);
    assert |multiset(Flatten(st.sink))| == |Flatten(st.sink)|;
  }

  function Last(r: RunState): Store
    requires r.past != []
  {
    r.past[|r.past| - 1]
  }

  /** The count never runs ahead of the records sent in completed rounds, and keeps up with them where
      sequential scenarios come first. */
  ghost predicate Counts(cfg: RunCfg, r: RunState)
    requires r.past != []
  {
    r.logCount <= Sent(Last(r)) && (SequentialFirst(cfg.scenarios) ==> r.logCount == Sent(Last(r)))
  }

  ghost predicate Counted(cfg: RunCfg, r: RunState) {
    RunInv(cfg, r) && Counts(cfg, r)
  }

  lemma RoundAddsItsTotal(cfg: RunCfg, r: RunState)
    requires Counted(cfg, r) && RunEnabled(cfg, r, Loop) && r.loop.Body?
    ensures var s, st := r.loop.round, Last(r);
            && s.total <= |Sum(s.sink, Bag)| - Sent(st)
            && (SequentialFirst(cfg.scenarios) ==> s.total == |Sum(s.sink, Bag)| - Sent(st))
  {
    var rd, st := cfg.RoundAt(|r.past| - 1), Last(r);
    var schedule :| r.loop.round == Exec(rd, Begin(rd, st), schedule);
    TotalNeverTooGreat(rd, st, schedule);
    if SequentialFirst(cfg.scenarios) {
      SequentialFirstIsExact(rd, st, schedule);
      assert TotalExact(rd, st, schedule);
    }
  }

  lemma RoundCounted(cfg: RunCfg, r: RunState)
    requires Counted(cfg, r) && RunEnabled(cfg, r, Loop) && r.loop.Body?
    ensures Counts(cfg, RunNext(cfg, r, Loop))
  {
    RoundAddsItsTotal(cfg, r);
    assert Last(RunNext(cfg, r, Loop)) == End(r.loop.round);
  }

  lemma OthersKeepCount(cfg: RunCfg, r: RunState, c: RunChoice)
    requires Wf(cfg, r) && RunEnabled(cfg, r, c) && !(c.Loop? && r.loop.Body?)
    ensures RunNext(cfg, r, c).past == r.past && RunNext(cfg, r, c).logCount == r.logCount
  {
  }

  lemma StepCounted(cfg: RunCfg, r: RunState, c: RunChoice)
    requires Counted(cfg, r) && RunEnabled(cfg, r, c)
    ensures Counted(cfg, RunNext(cfg, r, c))
  {
    RunStep(cfg, r, c);
    if c.Loop? && r.loop.Body? {
      RoundCounted(cfg, r);
    } else {
      OthersKeepCount(cfg, r, c);
    }
  }

  lemma {:induction false} ScheduleCounted(cfg: RunCfg, r: RunState, schedule: seq<RunChoice>)
    requires Counted(cfg, r)
    ensures Counted(cfg, RunExec(cfg, r, schedule))
    decreases |schedule|
  {
    if schedule != [] {
      if RunEnabled(cfg, r, schedule[0]) {
        StepCounted(cfg, r, schedule[0]);
        ScheduleCounted(cfg, RunNext(cfg, r, schedule[0]), schedule[1..]);
      } else {
        ScheduleCounted(cfg, r, schedule[1..]);
      }
    }
  }

  /** When the run is over, the count is the number of records sent. */
  ghost predicate CountExact(cfg: RunCfg, schedule: seq<RunChoice>)
    requires cfg.Valid()
  {
    var r := RunExec(cfg, Boot(cfg), schedule);
    r.loop.Closed? ==> r.logCount == |Flatten(Current(r).sink)|
  }

  lemma ExactAtTheEnd(cfg: RunCfg, schedule: seq<RunChoice>)
    requires cfg.Valid() && (SequentialFirst(cfg.scenarios) || cfg.start >= cfg.end)
    ensures CountExact(cfg, schedule)
  {
    BootInv(cfg);
    ScheduleCounted(cfg, Boot(cfg), schedule);
    var r := RunExec(cfg, Boot(cfg), schedule);
    SentIsFlat(Last(r));
    if |r.past| > 1 {
      RoundBeforeTheEnd(cfg, r.past);
    }
  }

  // ----- a run that counts too few

  /** A run that comes to the end of its first round on the given schedule, and then is cancelled. */
  lemma FirstRoundOnly(cfg: RunCfg, round: seq<Choice>) returns (schedule: seq<RunChoice>)
    requires cfg.Valid() && cfg.start < cfg.end
    requires Exec(cfg.RoundAt(0), Begin(cfg.RoundAt(0), cfg.initial), round).main.Returned?
    ensures var r, s := RunExec(cfg, Boot(cfg), schedule),
                        Exec(cfg.RoundAt(0), Begin(cfg.RoundAt(0), cfg.initial), round);
            r.loop.Closed? && r.logCount == s.total && Last(r) == End(s)
  {
    var r0 := Boot(cfg);
    assert RunExec(cfg, r0, []) == r0;
    ThenOne(cfg, r0, [], Start);
    ThenOne(cfg, r0, [] + [Start], Loop);
    var begun := [] + [Start] + [Loop];
    RunExecAppend(cfg, r0, begun, Threads(round));
    ThreadsRun(cfg, RunExec(cfg, r0, begun), round);
    ThenOne(cfg, r0, begun + Threads(round), Loop);
    ThenOne(cfg, r0, begun + Threads(round) + [Loop], CancelContext);
    ThenOne(cfg, r0, begun + Threads(round) + [Loop] + [CancelContext], Loop);
    schedule := begun + Threads(round) + [Loop] + [CancelContext] + [Loop];
  }

  /** The first round loses an addition, and then the run is cancelled. */
  lemma CountTooSmall(cfg: RunCfg) returns (schedule: seq<RunChoice>)
    requires cfg.Valid() && cfg.start < cfg.end && !SequentialFirst(cfg.scenarios)
    requires forall i | 0 <= i < |cfg.scenarios| :: Lively(cfg.scenarios[i])
    ensures !CountExact(cfg, schedule)
  {
    var round := TotalTooSmall(cfg.RoundAt(0), cfg.initial);
    schedule := FirstRoundOnly(cfg, round);
    SentIsFlat(Last(RunExec(cfg, Boot(cfg), schedule)));
  }

  /** The number that a run reports at its end is that of the records it sent, on every schedule, exactly
      when no sequential scenario comes after a concurrent one or there is nothing to simulate. */
  lemma CountExactIff(cfg: RunCfg)
    requires cfg.Valid()
    requires forall i | 0 <= i < |cfg.scenarios| :: Lively(cfg.scenarios[i])
    ensures (forall schedule :: CountExact(cfg, schedule)) <==> SequentialFirst(cfg.scenarios) || cfg.start >= cfg.end
  {
    if SequentialFirst(cfg.scenarios) || cfg.start >= cfg.end {
      forall schedule
        ensures CountExact(cfg, schedule)
      {
        ExactAtTheEnd(cfg, schedule);
      }
    } else {
      var schedule := CountTooSmall(cfg);
    }
  }
}
