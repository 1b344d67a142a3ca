/** What holds of every schedule of a round. */
module RoundTheorems {
  import opened Records
  import opened Bags
  import opened Rounds
  import opened Determinism
  import opened Shards

  // ----- determinism

  function Reference(rd: Round, st: Store): Yield
    requires StoreOk(rd, st)
  {
    Rest(rd, AtScenario(0, 1), st.base, st.volumes)
  }

  ghost function WholeBatch(rd: Round): Worker -> multiset<seq<LogRecord>> {
    (w: Worker) => if WorkerOk(rd, w) then multiset{Future(rd, w)} else multiset{}
  }

  /** The store `st'` is `st` plus the records of the reference: the main thread's in shard 0, each
      worker's, run from its spawn to its end in one go, in the shard it owns, and one batch a thread.  The
      batches sent before a worker is spawned come first and in order. */
  ghost predicate ExtendsByReference(rd: Round, st: Store, st': Store)
    requires StoreOk(rd, st)
  {
    ExtendsBy(rd, st, Reference(rd, st), st')
  }

  ghost predicate ExtendsBy(rd: Round, st: Store, y: Yield, st': Store)
    requires StoreOk(rd, st)
  {
    RecordsExtended(rd, st, y, st') && BatchesExtended(rd, st.sink, y, st'.sink)
  }

  ghost predicate RecordsExtended(rd: Round, st: Store, y: Yield, st': Store)
    requires StoreOk(rd, st)
  {
    && StoreOk(rd, st') && Owned(rd, y.workers)
    && st'.base == y.base && st'.volumes == y.volumes
    && (forall k: nat | k < rd.numShards ::
          st'.shards[k] == st.shards[k] + if k == 0 then y.own else FutureOn(rd, y.workers, k))
    && st'.needles == st.needles + Sum(y.own, NeedleBag) + Sum(y.workers, FutureNeedles(rd))
  }

  ghost predicate BatchesExtended(rd: Round, before: seq<seq<LogRecord>>, y: Yield, after: seq<seq<LogRecord>>) {
    && before <= before + y.early <= after
    && multiset(after[|before|..]) == multiset(y.batches) + Sum(y.workers, WholeBatch(rd))
  }

  /** The batches sent so far, and until a worker is spawned those that will come next, are known. */
  ghost predicate SentInOrder(rd: Round, st: Store, s: State)
    requires StoreOk(rd, st) && Ok(rd, s)
  {
    var early := Reference(rd, st).early;
    if s.workers == [] then s.sink + Rest(rd, s.main, s.base, s.volumes).early == st.sink + early
    else st.sink + early <= s.sink
  }

  lemma StepSendsInOrder(rd: Round, st: Store, s: State, c: Choice)
    requires StoreOk(rd, st) && Ok(rd, s) && Enabled(rd, s, c) && SentInOrder(rd, st, s)
    ensures SentInOrder(rd, st, Next(rd, s, c))
  {
    if c == Main {
      RestStep(rd, s);
      MainApplies(rd, s);
      var s' := StepMain(rd, s);
      var y' := Rest(rd, s'.main, s'.base, s'.volumes);
      match MainEffect(rd, s.main, s.base)
      case Sent(batch) => assert s.sink + ([batch] + y'.early) == s'.sink + y'.early;
      case Spawned(w) => assert s.sink + [] == s.sink;
      case _ =>
    }
  }

  lemma {:induction false} ScheduleSendsInOrder(rd: Round, st: Store, s: State, schedule: seq<Choice>)
    requires StoreOk(rd, st) && Ok(rd, s) && SentInOrder(rd, st, s)
    ensures SentInOrder(rd, st, Exec(rd, s, schedule))
    decreases |schedule|
  {
    if schedule != [] {
      if Enabled(rd, s, schedule[0]) {
        StepSendsInOrder(rd, st, s, schedule[0]);
        ScheduleSendsInOrder(rd, st, Next(rd, s, schedule[0]), schedule[1..]);
      } else {
        ScheduleSendsInOrder(rd, st, s, schedule[1..]);
      }
    }
  }

  lemma {:induction false} NothingLeft(rd: Round, ws: seq<Worker>)
    requires forall k | 0 <= k < |ws| :: WorkerOk(rd, ws[k]) && ws[k].pc == Finished
    ensures Sum(ws, FutureNeedles(rd)) == multiset{} && Sum(ws, FutureBatch(rd)) == multiset{}
  {
    if ws != [] {
      NothingLeft(rd, ws[..|ws| - 1]);
      assert WorkerOk(rd, ws[|ws| - 1]);
    }
  }

  lemma {:induction false} FreshBatches(rd: Round, ws: seq<Worker>)
    requires forall k | 0 <= k < |ws| :: FreshWorker(rd, ws[k])
    ensures Sum(ws, FutureBatch(rd)) == Sum(ws, WholeBatch(rd))
  {
    if ws != [] {
      var w := ws[|ws| - 1];
      FreshBatches(rd, ws[..|ws| - 1]);
      assert FreshWorker(rd, w) && [] + Future(rd, w) == Future(rd, w);
    }
  }

  lemma NoFuture(rd: Round, ws: seq<Worker>, k: nat)
    requires Owned(rd, ws) && forall i | 0 <= i < |ws| :: ws[i].pc == Finished
    ensures FutureOn(rd, ws, k) == []
  {
    if i :| 0 <= i < |ws| && ws[i].shard == k {
      FutureOnOwner(rd, ws, i);
      assert WorkerOk(rd, ws[i]);
    }
  }

  lemma SendsEarlyBatchesFirst(rd: Round, st: Store, schedule: seq<Choice>)
    requires StoreOk(rd, st)
    requires Exec(rd, Begin(rd, st), schedule).main.Returned?
    ensures var s, early := Exec(rd, Begin(rd, st), schedule), Reference(rd, st).early;
            st.sink + early <= s.sink && (s.workers == [] ==> s.sink == st.sink + early)
  {
    ScheduleSendsInOrder(rd, st, Begin(rd, st), schedule);
    var s := Exec(rd, Begin(rd, st), schedule);
    assert s.sink + [] == s.sink;
  }

  /** What `Agree` says of the beginning and the end of a round. */
  lemma OutcomeReached(rd: Round, st: Store, s: State)
    requires StoreOk(rd, st) && Ok(rd, s) && s.main.Returned? && Agree(rd, Begin(rd, st), s)
    requires forall k | 0 <= k < |Reference(rd, st).workers| :: FreshWorker(rd, Reference(rd, st).workers[k])
    ensures var y := Reference(rd, st);
            && Owned(rd, y.workers) && s.base == y.base && s.volumes == y.volumes
            && s.needles == st.needles + Sum(y.own, NeedleBag) + Sum(y.workers, FutureNeedles(rd))
            && multiset(s.sink) == (multiset(st.sink) + multiset(y.batches)) + Sum(y.workers, WholeBatch(rd))
  {
    var y := Reference(rd, st);
    assert AllWorkers(rd, Begin(rd, st)) == y.workers;
    assert AllWorkers(rd, s) == s.workers;
    NothingLeft(rd, s.workers);
    FreshBatches(rd, y.workers);
  }

  lemma ShardsReached(rd: Round, st: Store, s: State)
    requires StoreOk(rd, st) && Ok(rd, s) && s.main.Returned? && Agree(rd, Begin(rd, st), s)
    requires Owned(rd, Reference(rd, st).workers)
    ensures var y := Reference(rd, st);
            forall k: nat | k < rd.numShards ::
              s.shards[k] == st.shards[k] + if k == 0 then y.own else FutureOn(rd, y.workers, k)
  {
    var y := Reference(rd, st);
    assert AllWorkers(rd, Begin(rd, st)) == y.workers;
    assert AllWorkers(rd, s) == s.workers;
    forall k: nat | k < rd.numShards
      ensures s.shards[k] == st.shards[k] + if k == 0 then y.own else FutureOn(rd, y.workers, k)
    {
      NoFuture(rd, s.workers, k);
      assert s.shards[k] == FinalShard(rd, s.shards[k], Rest(rd, s.main, s.base, s.volumes), s.workers, k);
      assert FinalShard(rd, End(s).shards[k], Rest(rd, s.main, s.base, s.volumes), s.workers, k)
          == FinalShard(rd, st.shards[k], y, y.workers, k);
    }
  }

  /** Determinism: every schedule that completes a round leaves what the reference leaves. */
  lemma RoundIsDeterministic(rd: Round, st: Store, schedule: seq<Choice>)
    requires Room(rd) && StoreOk(rd, st)
    requires Exec(rd, Begin(rd, st), schedule).main.Returned?
    ensures ExtendsByReference(rd, st, End(Exec(rd, Begin(rd, st), schedule)))
  {
    var s := Exec(rd, Begin(rd, st), schedule);
    var y := Reference(rd, st);
    WorkersOwnTheirShards(rd, st);
    assert AllWorkers(rd, Begin(rd, st)) == y.workers;
    ScheduleKeepsOutcome(rd, Begin(rd, st), schedule);
    SendsEarlyBatchesFirst(rd, st, schedule);
    OutcomeReached(rd, st, s);
    ShardsReached(rd, st, s);
    NewBatches(st.sink, s.sink, multiset(y.batches), Sum(y.workers, WholeBatch(rd)));
  }

  lemma NewBatches<T>(before: seq<T>, after: seq<T>, a: multiset<T>, b: multiset<T>)
    requires before <= after
    requires multiset(after) == (multiset(before) + a) + b
    ensures multiset(after[|before|..]) == a + b
  {
    var rest := after[|before|..];
    assert after == before + rest;
    assert multiset(before + rest) == multiset(before) + multiset(rest);
    assert (multiset(before) + a) + b == (a + b) + multiset(before);
    Cancel(multiset(after[|before|..]), a + b, multiset(before));
  }

  /** Two stores that differ at most in the order in which the batches after the first `n` were sent. */
  ghost predicate SameUpToOrder(st: Store, st': Store, n: nat) {
    && st.(sink := []) == st'.(sink := [])
    && n <= |st.sink| && n <= |st'.sink|
    && st.sink[..n] == st'.sink[..n]
    && multiset(st.sink[n..]) == multiset(st'.sink[n..])
  }

  /** Same seed, same configuration, same output, whatever the two schedules, up to the order in which
      batches were sent once a worker had been spawned. */
  lemma SchedulesAgree(rd: Round, st: Store, schedule: seq<Choice>, schedule': seq<Choice>)
    requires Room(rd) && StoreOk(rd, st)
    requires Exec(rd, Begin(rd, st), schedule).main.Returned? && Exec(rd, Begin(rd, st), schedule').main.Returned?
    ensures SameUpToOrder(End(Exec(rd, Begin(rd, st), schedule)), End(Exec(rd, Begin(rd, st), schedule')),
                          |st.sink| + |Reference(rd, st).early|)
  {
    RoundIsDeterministic(rd, st, schedule);
    RoundIsDeterministic(rd, st, schedule');
    ReferenceIsUnique(rd, st, End(Exec(rd, Begin(rd, st), schedule)), End(Exec(rd, Begin(rd, st), schedule')));
  }

  lemma ReferenceIsUnique(rd: Round, st: Store, a: Store, b: Store)
    requires StoreOk(rd, st) && ExtendsByReference(rd, st, a) && ExtendsByReference(rd, st, b)
    ensures SameUpToOrder(a, b, |st.sink| + |Reference(rd, st).early|)
  {
    var y := Reference(rd, st);
    SameRecords(rd, st, y, a, b);
    SameBatches(rd, st.sink, y, a.sink, b.sink);
  }

  lemma SameRecords(rd: Round, st: Store, y: Yield, a: Store, b: Store)
    requires StoreOk(rd, st) && RecordsExtended(rd, st, y, a) && RecordsExtended(rd, st, y, b)
    ensures a.(sink := []) == b.(sink := [])
  {
    assert a.shards == b.shards;
  }

  lemma SameBatches(
      rd: Round, before: seq<seq<LogRecord>>, y: Yield, a: seq<seq<LogRecord>>, b: seq<seq<LogRecord>>)
    requires BatchesExtended(rd, before, y, a) && BatchesExtended(rd, before, y, b)
    ensures var n := |before| + |y.early|;
            n <= |a| && n <= |b| && a[..n] == b[..n] && multiset(a[n..]) == multiset(b[n..])
  {
    SameLaterBatches(before, y.early, a, b);
  }

  lemma SameLaterBatches<T>(before: seq<T>, early: seq<T>, a: seq<T>, b: seq<T>)
    requires before + early <= a && before + early <= b
    requires multiset(a[|before|..]) == multiset(b[|before|..])
    ensures var n := |before| + |early|;
            a[..n] == b[..n] && multiset(a[n..]) == multiset(b[n..])
  {
    LaterBatches(before, early, a);
    LaterBatches(before, early, b);
    var n := |before| + |early|;
    Cancel(multiset(a[n..]), multiset(b[n..]), multiset(early));
  }

  lemma LaterBatches<T>(before: seq<T>, early: seq<T>, after: seq<T>)
    requires before + early <= after
    ensures before <= after && after[..|before| + |early|] == before + early
    ensures multiset(after[|before|..]) == multiset(after[|before| + |early|..]) + multiset(early)
  {
    assert after[|before|..] == early + after[|before| + |early|..];
  }
}
