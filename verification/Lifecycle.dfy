/** Whole runs: `Start`'s loop over simulated time, cancellation, and `Shutdown`, interleaved with the
    threads of the rounds. */
module Lifecycle {
  import opened Records
  import opened Bags
  import opened Rounds
  import opened Determinism
  import opened Shards
  import opened RoundTheorems
  import opened Conservation
  import opened Progress
  import Partition

  datatype RunCfg = RunCfg(
    scenarios: seq<Scenario>, numShards: nat, start: int, end: int, interval: int, initial: Store)
  {

    /** The shards are sized as the receiver sizes them, and the interval is positive, as validation demands. */
    predicate Valid() {
      && numShards == 1 + AllConcurrency(scenarios)
      && interval > 0
      && |initial.volumes| == |scenarios|
      && initial.shards == seq(numShards, _ => [])
      && initial.needles == multiset{} && initial.sink == []
    }

    function RoundAt(k: nat): Round
      requires Valid()
    {
      Round(scenarios, numShards, start + k * interval)
    }
  }

  datatype LoopPc = NotStarted | Head | Body(round: State) | Closed

  /** The channel that `Shutdown` waits on: the one closed in advance, or the one of the started run. */
  datatype Done = ClosedInAdvance | ClosedByRun

  /** What a shutdown reports: the shards it merges, the needle counters and the number of records. */
  datatype ShutdownPc =
    | NotCalled
    | Waiting(done: Done)
    | Merged(done: Done, shards: seq<seq<LogRecord>>, needles: multiset<string>, logs: nat)

  /** `past` lists the store before each round begun so far, and after the last one completed; `logCount`
      adds up the totals that the rounds returned. */
  datatype RunState = RunState(
    loop: LoopPc, time: int, past: seq<Store>, logCount: nat, cancelled: bool, shutdown: ShutdownPc)

  datatype RunChoice = Start | Loop | Thread(c: Choice) | CancelContext | CallShutdown | Merge

  function Boot(cfg: RunCfg): RunState {
    RunState(NotStarted, cfg.start, [cfg.initial], 0, false, NotCalled)
  }

  function Current(r: RunState): Store
    requires r.past != []
  {
    match r.loop
    case Body(s) => End(s)
    case _ => r.past[|r.past| - 1]
  }

  ghost predicate Wf(cfg: RunCfg, r: RunState) {
    && cfg.Valid() && r.past != []
    && (forall k | 0 <= k < |r.past| :: StoreOk(cfg.RoundAt(0), r.past[k]))
    && r.time == cfg.start + (|r.past| - 1) * cfg.interval
    && (r.loop.Body? ==> Ok(cfg.RoundAt(|r.past| - 1), r.loop.round))
  }

  ghost predicate RunEnabled(cfg: RunCfg, r: RunState, c: RunChoice)
    requires Wf(cfg, r)
  {
    match c
    case Start => r.loop.NotStarted?
    case Loop => r.loop.Head? || (r.loop.Body? && r.loop.round.main.Returned?)
    case Thread(t) => r.loop.Body? && Enabled(cfg.RoundAt(|r.past| - 1), r.loop.round, t)
    case CancelContext => !r.loop.NotStarted?
    case CallShutdown => r.shutdown.NotCalled?
    case Merge => r.shutdown.Waiting? && (r.shutdown.done.ClosedInAdvance? || r.loop.Closed?)
  }

  ghost function RunNext(cfg: RunCfg, r: RunState, c: RunChoice): (r': RunState)
    requires Wf(cfg, r) && RunEnabled(cfg, r, c)
    ensures Wf(cfg, r')
  {
    match c
    case Start => r.(loop := Head)
    case Loop =>
      if r.loop.Head? then
        if r.time >= cfg.end || r.cancelled then r.(loop := Closed)
        else r.(loop := Body(Begin(cfg.RoundAt(|r.past| - 1), Current(r))))
      else
        Unroll(cfg, |r.past| - 1);
        r.(loop := Head, time := r.time + cfg.interval, past := r.past + [End(r.loop.round)],
           logCount := r.logCount + r.loop.round.total)
    case Thread(t) => r.(loop := Body(Next(cfg.RoundAt(|r.past| - 1), r.loop.round, t)))
    case CancelContext => r.(cancelled := true)
    case CallShutdown =>
      if r.loop.NotStarted? then r.(shutdown := Waiting(ClosedInAdvance))
      else r.(shutdown := Waiting(ClosedByRun), cancelled := true)
    case Merge => r.(shutdown := MergedNow(r))
  }

  /** The report of a shutdown that merges now. */
  function MergedNow(r: RunState): ShutdownPc
    requires r.past != [] && r.shutdown.Waiting?
  {
    Merged(r.shutdown.done, Current(r).shards, Current(r).needles, r.logCount)
  }

  lemma Unroll(cfg: RunCfg, k: nat)
    ensures (k + 1) * cfg.interval == k * cfg.interval + cfg.interval
  {
  }

  ghost function RunExec(cfg: RunCfg, r: RunState, schedule: seq<RunChoice>): (r': RunState)
    requires Wf(cfg, r)
    ensures Wf(cfg, r')
    decreases |schedule|
  {
    if schedule == [] then r
    else RunExec(cfg, if RunEnabled(cfg, r, schedule[0]) then RunNext(cfg, r, schedule[0]) else r, schedule[1..])
  }

  // ----- what every step of a run keeps

  ghost predicate Reachable(rd: Round, st: Store, s: State)
    requires StoreOk(rd, st)
  {
    exists schedule :: s == Exec(rd, Begin(rd, st), schedule)
  }

  /** Each round so far extended the store by its reference, began before the end, and left the books balanced. */
  ghost predicate History(cfg: RunCfg, past: seq<Store>) {
    && cfg.Valid() && past != [] && past[0] == cfg.initial
    && (forall k | 0 <= k < |past| :: StoreOk(cfg.RoundAt(k), past[k]) && StoreBalanced(past[k]))
    && (forall k | 0 <= k < |past| - 1 ::
          ExtendsByReference(cfg.RoundAt(k), past[k], past[k + 1]) && cfg.RoundAt(k).time < cfg.end)
  }

  ghost predicate LoopInv(cfg: RunCfg, r: RunState)
    requires Wf(cfg, r)
  {
    match r.loop
    case NotStarted => |r.past| == 1 && !r.cancelled
    case Head => true
    case Body(s) =>
      && r.time < cfg.end
      && Reachable(cfg.RoundAt(|r.past| - 1), r.past[|r.past| - 1], s)
    case Closed => r.time >= cfg.end || r.cancelled
  }

  ghost predicate ShutdownInv(r: RunState)
    requires r.past != []
  {
    match r.shutdown
    case NotCalled => true
    case Waiting(done) => done.ClosedByRun? ==> !r.loop.NotStarted? && r.cancelled
    case Merged(done, shards, needles, logs) =>
      done.ClosedByRun? ==>
        && r.loop.Closed?
        && shards == Current(r).shards && needles == Current(r).needles && logs == r.logCount
  }

  ghost predicate RunInv(cfg: RunCfg, r: RunState) {
    Wf(cfg, r) && History(cfg, r.past) && LoopInv(cfg, r) && ShutdownInv(r)
  }

  lemma ThreadKeepsReachable(rd: Round, st: Store, s: State, c: Choice)
    requires StoreOk(rd, st) && Ok(rd, s) && Reachable(rd, st, s) && Enabled(rd, s, c)
    ensures Reachable(rd, st, Next(rd, s, c))
  {
    var schedule :| s == Exec(rd, Begin(rd, st), schedule);
    ExecAppend(rd, Begin(rd, st), schedule, [c]);
    assert [c][1..] == [] && Exec(rd, Next(rd, s, c), []) == Next(rd, s, c);
    assert Exec(rd, Begin(rd, st), schedule + [c]) == Next(rd, s, c);
  }

  lemma RoundEnds(rd: Round, st: Store, s: State)
    requires rd.numShards == 1 + AllConcurrency(rd.scenarios)
    requires StoreOk(rd, st) && StoreBalanced(st) && Ok(rd, s) && Reachable(rd, st, s) && s.main.Returned?
    ensures StoreBalanced(End(s)) && ExtendsByReference(rd, st, End(s))
  {
    var schedule :| s == Exec(rd, Begin(rd, st), schedule);
    ReceiverHasRoom(rd);
    RoundIsDeterministic(rd, st, schedule);
    RoundConserves(rd, st, schedule);
  }

  lemma HistoryGrows(cfg: RunCfg, past: seq<Store>, s: State)
    requires History(cfg, past) && cfg.RoundAt(|past| - 1).time < cfg.end
    requires Ok(cfg.RoundAt(|past| - 1), s) && s.main.Returned?
    requires Reachable(cfg.RoundAt(|past| - 1), past[|past| - 1], s)
    ensures History(cfg, past + [End(s)])
  {
    var n := |past| - 1;
    RoundEnds(cfg.RoundAt(n), past[n], s);
    var longer := past + [End(s)];
    forall k | 0 <= k < |longer| - 1
      ensures ExtendsByReference(cfg.RoundAt(k), longer[k], longer[k + 1]) && cfg.RoundAt(k).time < cfg.end
    {
      if k == n {
        assert longer[k] == past[n];
      } else {
        assert longer[k] == past[k] && longer[k + 1] == past[k + 1];
      }
    }
  }

  lemma ReplaceRound(cfg: RunCfg, r: RunState, s: State)
    requires RunInv(cfg, r) && r.loop.Body? && Ok(cfg.RoundAt(|r.past| - 1), s)
    requires Reachable(cfg.RoundAt(|r.past| - 1), r.past[|r.past| - 1], s)
    ensures RunInv(cfg, r.(loop := Body(s)))
  {
  }

  lemma ThreadStep(cfg: RunCfg, r: RunState, t: Choice)
    requires RunInv(cfg, r) && RunEnabled(cfg, r, Thread(t))
    ensures RunInv(cfg, RunNext(cfg, r, Thread(t)))
  {
    var rd, st := cfg.RoundAt(|r.past| - 1), r.past[|r.past| - 1];
    ThreadKeepsReachable(rd, st, r.loop.round, t);
    ReplaceRound(cfg, r, Next(rd, r.loop.round, t));
  }

  lemma EndRoundStep(cfg: RunCfg, r: RunState)
    requires RunInv(cfg, r) && RunEnabled(cfg, r, Loop) && r.loop.Body?
    ensures RunInv(cfg, RunNext(cfg, r, Loop))
  {
    HistoryGrows(cfg, r.past, r.loop.round);
  }

  lemma HeadStep(cfg: RunCfg, r: RunState)
    requires RunInv(cfg, r) && r.loop.Head?
    ensures RunInv(cfg, RunNext(cfg, r, Loop))
  {
    var r' := RunNext(cfg, r, Loop);
    if r'.loop.Body? {
      var rd, st := cfg.RoundAt(|r.past| - 1), Current(r);
      assert Exec(rd, Begin(rd, st), []) == r'.loop.round;
      assert Reachable(rd, st, r'.loop.round);
    }
  }

  /** Starting, cancelling and calling or completing the shutdown leave the rounds alone. */
  lemma StartStep(cfg: RunCfg, r: RunState)
    requires RunInv(cfg, r) && r.loop.NotStarted?
    ensures RunInv(cfg, r.(loop := Head))
  {
  }

  lemma CancelStep(cfg: RunCfg, r: RunState, shutdown: ShutdownPc)
    requires RunInv(cfg, r) && !r.loop.NotStarted?
    requires shutdown == r.shutdown || shutdown == Waiting(ClosedByRun)
    ensures RunInv(cfg, r.(shutdown := shutdown, cancelled := true))
  {
  }

  lemma EarlyCallStep(cfg: RunCfg, r: RunState)
    requires RunInv(cfg, r)
    ensures RunInv(cfg, r.(shutdown := Waiting(ClosedInAdvance)))
  {
  }

  lemma MergeStep(cfg: RunCfg, r: RunState)
    requires RunInv(cfg, r) && RunEnabled(cfg, r, Merge)
    ensures RunInv(cfg, r.(shutdown := MergedNow(r)))
  {
  }

  lemma RunStep(cfg: RunCfg, r: RunState, c: RunChoice)
    requires RunInv(cfg, r) && RunEnabled(cfg, r, c)
    ensures RunInv(cfg, RunNext(cfg, r, c))
  {
    match c
    case Thread(t) => ThreadStep(cfg, r, t);
    case Loop =>
      if r.loop.Body? {
        EndRoundStep(cfg, r);
      } else {
        HeadStep(cfg, r);
      }
    case Start => StartStep(cfg, r);
    case CancelContext => CancelStep(cfg, r, r.shutdown);
    case CallShutdown =>
      if r.loop.NotStarted? {
        EarlyCallStep(cfg, r);
      } else {
        CancelStep(cfg, r, Waiting(ClosedByRun));
      }
    case Merge => MergeStep(cfg, r);
  }

  lemma {:induction false} RunKeeps(cfg: RunCfg, r: RunState, schedule: seq<RunChoice>)
    requires RunInv(cfg, r)
    ensures RunInv(cfg, RunExec(cfg, r, schedule))
    decreases |schedule|
  {
    if schedule != [] {
      if RunEnabled(cfg, r, schedule[0]) {
        RunStep(cfg, r, schedule[0]);
        RunKeeps(cfg, RunNext(cfg, r, schedule[0]), schedule[1..]);
      } else {
        RunKeeps(cfg, r, schedule[1..]);
      }
    }
  }

  lemma {:induction false} NothingInEmptyShards(n: nat)
    ensures Sum(seq(n, _ => []), Bag<LogRecord>) == multiset{}
    ensures Sum(seq(n, _ => []), NeedlesIn) == multiset{}
  {
    if n > 0 {
      NothingInEmptyShards(n - 1);
      assert seq(n, _ => [])[..n - 1] == seq<seq<LogRecord>>(n - 1, _ => []);
    }
  }

  lemma BootInv(cfg: RunCfg)
    requires cfg.Valid()
    ensures RunInv(cfg, Boot(cfg))
  {
    NothingInEmptyShards(cfg.numShards);
  }

  lemma RoundBeforeTheEnd(cfg: RunCfg, past: seq<Store>)
    requires History(cfg, past) && |past| > 1
    ensures cfg.start < cfg.end
  {
    assert cfg.RoundAt(0).time < cfg.end;
  }

  // ----- the number of rounds

  /** Rounds begin at start, start + interval, ... while before the end. */
  function RoundsBetween(start: int, end: int, interval: int): nat
    requires interval > 0
  {
    if end <= start then 0 else (end - start + interval - 1) / interval
  }

  lemma RoundCount(start: int, end: int, interval: int, n: nat)
    requires interval > 0
    requires start + n * interval >= end
    requires n > 0 ==> start + (n - 1) * interval < end
    ensures n == RoundsBetween(start, end, interval)
  {
    if n > 0 {
      var d := end - start + interval - 1;
      assert (n - 1) * interval == n * interval - interval;
      assert n * interval <= d < n * interval + interval;
      var q := d / interval;
      assert d == interval * q + d % interval;
      Partition.Cancel(interval, q, n);
      Partition.Cancel(interval, n, q);
    }
  }

  /** Rounds completed, counting the one in progress. */
  function Begun(r: RunState): int {
    |r.past| - 1 + if r.loop.Body? then 1 else 0
  }

  /** After cancellation no round begins: at most the one in progress is finished. */
  lemma {:induction false} CancellationStopsRounds(cfg: RunCfg, r: RunState, schedule: seq<RunChoice>)
    requires Wf(cfg, r) && r.cancelled
    ensures RunExec(cfg, r, schedule).cancelled && Begun(RunExec(cfg, r, schedule)) == Begun(r)
    decreases |schedule|
  {
    if schedule != [] {
      var c := schedule[0];
      CancellationStopsRounds(cfg, if RunEnabled(cfg, r, c) then RunNext(cfg, r, c) else r, schedule[1..]);
    }
  }

  // ----- determinism of whole runs

  /** Equal but for the order in which batches were sent. */
  ghost predicate SameRun(a: Store, b: Store) {
    a.(sink := []) == b.(sink := []) && multiset(a.sink) == multiset(b.sink)
  }

  /** The same batches were sent from store `a` to `a'` as from `b` to `b'`. */
  ghost predicate SameRound(a: Store, a': Store, b: Store, b': Store) {
    a.sink <= a'.sink && b.sink <= b'.sink && multiset(a'.sink[|a.sink|..]) == multiset(b'.sink[|b.sink|..])
  }

  lemma SplitSink<T>(before: seq<T>, after: seq<T>)
    requires before <= after
    ensures multiset(after) == multiset(before) + multiset(after[|before|..])
  {
    assert after == before + after[|before|..];
  }

  lemma RecordsAgree(rd: Round, y: Yield, a: Store, b: Store, a': Store, b': Store)
    requires StoreOk(rd, a) && StoreOk(rd, b) && a.(sink := []) == b.(sink := [])
    requires RecordsExtended(rd, a, y, a') && RecordsExtended(rd, b, y, b')
    ensures a'.(sink := []) == b'.(sink := [])
  {
    assert a.shards == b.shards;
    assert a'.shards == b'.shards;
  }

  lemma BatchesAgree(rd: Round, y: Yield, a: Store, b: Store, a': Store, b': Store)
    requires multiset(a.sink) == multiset(b.sink)
    requires BatchesExtended(rd, a.sink, y, a'.sink) && BatchesExtended(rd, b.sink, y, b'.sink)
    ensures multiset(a'.sink) == multiset(b'.sink) && SameRound(a, a', b, b')
  {
    SplitSink(a.sink, a'.sink);
    SplitSink(b.sink, b'.sink);
  }

  lemma RoundsAgree(rd: Round, a: Store, b: Store, a': Store, b': Store)
    requires StoreOk(rd, a) && StoreOk(rd, b) && SameRun(a, b)
    requires ExtendsByReference(rd, a, a') && ExtendsByReference(rd, b, b')
    ensures SameRun(a', b') && SameRound(a, a', b, b')
  {
    assert a.base == b.base && a.volumes == b.volumes;
    RecordsAgree(rd, Reference(rd, a), a, b, a', b');
    BatchesAgree(rd, Reference(rd, a), a, b, a', b');
  }

  lemma {:induction false} HistoriesAgree(cfg: RunCfg, p: seq<Store>, q: seq<Store>, k: nat)
    requires History(cfg, p) && History(cfg, q) && k < |p| && k < |q|
    ensures SameRun(p[k], q[k])
    ensures k > 0 ==> SameRound(p[k - 1], p[k], q[k - 1], q[k])
    decreases k
  {
    if k > 0 {
      HistoriesAgree(cfg, p, q, k - 1);
      RoundsAgree(cfg.RoundAt(k - 1), p[k - 1], q[k - 1], p[k], q[k]);
    }
  }

  /** Same seed and same configuration give the same output: two runs, however their threads interleave
      and whenever they are cancelled, agree on every round that both complete, up to the order in which
      the round's batches were sent. */
  lemma RunsAgree(cfg: RunCfg, schedule: seq<RunChoice>, schedule': seq<RunChoice>, k: nat)
    requires cfg.Valid()
    requires k < |RunExec(cfg, Boot(cfg), schedule).past| && k < |RunExec(cfg, Boot(cfg), schedule').past|
    ensures var p, q := RunExec(cfg, Boot(cfg), schedule).past, RunExec(cfg, Boot(cfg), schedule').past;
            && SameRun(p[k], q[k])
            && (k > 0 ==> SameRound(p[k - 1], p[k], q[k - 1], q[k]))
  {
    BootInv(cfg);
    RunKeeps(cfg, Boot(cfg), schedule);
    RunKeeps(cfg, Boot(cfg), schedule');
    HistoriesAgree(cfg, RunExec(cfg, Boot(cfg), schedule).past, RunExec(cfg, Boot(cfg), schedule').past, k);
  }

  // ----- shutdown

  /** When `Shutdown` was called after `Start`, what it merges is final and complete: the run is over, no
      thread is left, the merged shards hold exactly the records sent, and the needle counters count
      exactly the replaced ones among them. */
  lemma ShutdownMergesEverything(cfg: RunCfg, schedule: seq<RunChoice>)
    requires cfg.Valid()
    requires var r := RunExec(cfg, Boot(cfg), schedule); r.shutdown.Merged? && r.shutdown.done.ClosedByRun?
    ensures var r := RunExec(cfg, Boot(cfg), schedule);
            && r.loop.Closed?
            && multiset(Flatten(r.shutdown.shards)) == multiset(Flatten(Current(r).sink))
            && r.shutdown.needles == Sum(Flatten(Current(r).sink), NeedleBag)
            && r.shutdown.logs == r.logCount
  {
    BootInv(cfg);
    RunKeeps(cfg, Boot(cfg), schedule);
    var r := RunExec(cfg, Boot(cfg), schedule);
    var st := Current(r);
    assert StoreBalanced(st);
    FlattenBag(st.shards);
    FlattenBag(st.sink);
    NeedlesOfShards(st.shards);
    SumPermutation(Flatten(st.shards), Flatten(st.sink), NeedleBag);
  }

  lemma {:induction false} NeedlesOfShards(shards: seq<seq<LogRecord>>)
    ensures Sum(shards, NeedlesIn) == Sum(Flatten(shards), NeedleBag)
  {
    if shards != [] {
      NeedlesOfShards(shards[..|shards| - 1]);
      SumAppend(Flatten(shards[..|shards| - 1]), shards[|shards| - 1], NeedleBag);
    }
  }

  /** `Shutdown` called before `Start` waits on a channel closed in advance, and may merge while the run
      it did not see is in the middle of a round. */
  lemma EarlyShutdownMergesTooSoon(cfg: RunCfg, r: RunState) returns (schedule: seq<RunChoice>)
    requires RunInv(cfg, r) && r.shutdown.NotCalled? && r.loop.NotStarted? && cfg.start < cfg.end
    ensures var r' := RunExec(cfg, RunNext(cfg, r, CallShutdown), schedule);
            r'.shutdown.Merged? && r'.loop.Body?
  {
    var r1 := RunNext(cfg, r, CallShutdown);
    var r2 := RunNext(cfg, r1, Start);
    var r3 := RunNext(cfg, r2, Loop);
    var r4 := RunNext(cfg, r3, Merge);
    schedule := [Start, Loop, Merge];
    assert RunExec(cfg, r4, []) == r4;
    assert RunExec(cfg, r3, [Merge]) == r4 by { assert [Merge][1..] == []; }
    assert RunExec(cfg, r2, [Loop, Merge]) == r4 by { assert [Loop, Merge][1..] == [Merge]; }
    assert RunExec(cfg, r1, schedule) == r4 by { assert schedule[1..] == [Loop, Merge]; }
  }

  /** A merge never sees a round in progress, however the run goes on from `r`. */
  ghost predicate MergesBetweenRounds(cfg: RunCfg, r: RunState)
    requires Wf(cfg, r)
  {
    forall schedule :: RunExec(cfg, r, schedule).shutdown.Merged? ==> !RunExec(cfg, r, schedule).loop.Body?
  }

  /** The channel that a shutdown waits on is the one it found when it was called. */
  lemma {:induction false} WaitsOnTheSame(cfg: RunCfg, r: RunState, schedule: seq<RunChoice>)
    requires Wf(cfg, r) && !r.shutdown.NotCalled?
    ensures !RunExec(cfg, r, schedule).shutdown.NotCalled?
    ensures RunExec(cfg, r, schedule).shutdown.done == r.shutdown.done
    decreases |schedule|
  {
    if schedule != [] {
      var c := schedule[0];
      WaitsOnTheSame(cfg, if RunEnabled(cfg, r, c) then RunNext(cfg, r, c) else r, schedule[1..]);
    }
  }

  lemma NoRoundWithoutInterval(cfg: RunCfg, r: RunState)
    requires RunInv(cfg, r) && cfg.start >= cfg.end
    ensures !r.loop.Body?
  {
    assert (|r.past| - 1) * cfg.interval >= 0;
  }

  /** A shutdown that is called now, whether or not the run has started, cannot merge in the middle of a
      round exactly when the run has started or has no interval to simulate. */
  lemma ShutdownSafeIff(cfg: RunCfg, r: RunState)
    requires RunInv(cfg, r) && r.shutdown.NotCalled?
    ensures MergesBetweenRounds(cfg, RunNext(cfg, r, CallShutdown)) <==> !r.loop.NotStarted? || cfg.start >= cfg.end
  {
    var r1 := RunNext(cfg, r, CallShutdown);
    RunStep(cfg, r, CallShutdown);
    if r.loop.NotStarted? && cfg.start < cfg.end {
      var schedule := EarlyShutdownMergesTooSoon(cfg, r);
    } else {
      forall schedule
        ensures RunExec(cfg, r1, schedule).shutdown.Merged? ==> !RunExec(cfg, r1, schedule).loop.Body?
      {
        RunKeeps(cfg, r1, schedule);
        if cfg.start >= cfg.end {
          NoRoundWithoutInterval(cfg, RunExec(cfg, r1, schedule));
        } else {
          WaitsOnTheSame(cfg, r1, schedule);
        }
      }
    }
  }
}
