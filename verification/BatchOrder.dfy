/** The order in which batches reach the consumer.

The batches that a round sends before it spawns a worker come in the order of the scenarios.  The others
compete: their order is the same on every schedule exactly when they are all alike. */
module BatchOrder {
  import opened Records
  import opened Bags
  import opened Rounds
  import opened Determinism
  import opened Shards
  import opened RoundTheorems
  import opened Progress
  import opened RoundTotal
  import opened Lifecycle
  import opened RunProgress

  /** The batches that the reference sends from the first spawn on, by whatever thread. */
  ghost function Late(rd: Round, st: Store): multiset<seq<LogRecord>>
    requires StoreOk(rd, st)
  {
    LateOf(rd, Reference(rd, st))
  }

  ghost function LateOf(rd: Round, y: Yield): multiset<seq<LogRecord>> {
    (multiset(y.batches) + Sum(y.workers, WholeBatch(rd))) - multiset(y.early)
  }

  ghost predicate Alike<T>(m: multiset<T>) {
    forall a, b | a in m && b in m :: a == b
  }

  /** On all schedules the batches of the round are sent in the same order. */
  ghost predicate OrderFixed(rd: Round, st: Store)
    requires StoreOk(rd, st)
  {
    forall p, q | Exec(rd, Begin(rd, st), p).main.Returned? && Exec(rd, Begin(rd, st), q).main.Returned? ::
      Exec(rd, Begin(rd, st), p).sink == Exec(rd, Begin(rd, st), q).sink
  }

  // ----- alike batches have one order

  /** A round sends the late batches last. */
  lemma LateComeLast(rd: Round, before: seq<seq<LogRecord>>, y: Yield, after: seq<seq<LogRecord>>)
    requires BatchesExtended(rd, before, y, after)
    ensures var n := |before| + |y.early|;
            n <= |after| && after[..n] == before + y.early && multiset(after[n..]) == LateOf(rd, y)
  {
    LaterBatches(before, y.early, after);
    assert multiset(after[|before|..]) - multiset(y.early) == multiset(after[|before| + |y.early|..]);
  }

  lemma AlikeSequences<T>(a: seq<T>, b: seq<T>)
    requires multiset(a) == multiset(b) && Alike(multiset(a))
    ensures a == b
  {
    assert |a| == |multiset(a)| && |b| == |multiset(b)|;
    forall i | 0 <= i < |a|
      ensures a[i] == b[i]
    {
      assert a[i] in multiset(a) && b[i] in multiset(b);
    }
  }

  lemma TailsInOrder<T>(a: seq<T>, b: seq<T>, n: nat)
    requires n <= |a| && n <= |b| && a[..n] == b[..n]
    requires multiset(a[n..]) == multiset(b[n..]) && Alike(multiset(a[n..]))
    ensures a == b
  {
    AlikeSequences(a[n..], b[n..]);
    assert a == a[..n] + a[n..] && b == b[..n] + b[n..];
  }

  lemma ExtensionsInOrder(
      rd: Round, before: seq<seq<LogRecord>>, y: Yield, a: seq<seq<LogRecord>>, b: seq<seq<LogRecord>>)
    requires BatchesExtended(rd, before, y, a) && BatchesExtended(rd, before, y, b) && Alike(LateOf(rd, y))
    ensures a == b
  {
    LateComeLast(rd, before, y, a);
    LateComeLast(rd, before, y, b);
    TailsInOrder(a, b, |before| + |y.early|);
  }

  // ----- batches that differ have several

  /** Only worker `k` moves, until it has sent its batch. */
  lemma {:induction false} DriveSend(rd: Round, s: State, k: nat) returns (s': State)
    requires Ok(rd, s) && k < |s.workers| && s.workers[k].pc == Working && WorkerOk(rd, s.workers[k])
    ensures Reaches(rd, s, s')
    ensures s'.main == s.main && s'.sink == s.sink + [s.workers[k].batch + Future(rd, s.workers[k])]
    ensures |s'.workers| == |s.workers| && s'.workers[k].pc == Finished
    ensures forall i | 0 <= i < |s.workers| && i != k :: s'.workers[i] == s.workers[i]
    decreases |s.workers[k].jobs|
  {
    var w, s1 := s.workers[k], Next(rd, s, Step(k));
    if w.jobs == [] {
      s' := Next(rd, s1, Step(k));
      assert w.batch + Future(rd, w) == w.batch;
      ReachesItself(rd, s');
      ReachesStep(rd, s1, Step(k), s');
    } else {
      var rec := rd.scenarios[w.scn].emit(rd.time, w.jobs[0], w.rng).0;
      assert WorkerOk(rd, s1.workers[k]);
      EmitSplits(rd, w, s1.workers[k], rec);
      assert (w.batch + [rec]) + Future(rd, s1.workers[k]) == w.batch + ([rec] + Future(rd, s1.workers[k]));
      s' := DriveSend(rd, s1, k);
    }
    ReachesStep(rd, s, Step(k), s');
  }

  /** However the round goes on from `s`, it will have sent `n` batches. */
  ghost predicate WillHaveSent(rd: Round, s: State, n: nat)
    requires Ok(rd, s)
  {
    forall schedule | Exec(rd, s, schedule).main.Returned? :: |Exec(rd, s, schedule).sink| == n
  }

  lemma StillWillHaveSent(rd: Round, s: State, c: Choice, n: nat)
    requires Ok(rd, s) && Enabled(rd, s, c) && WillHaveSent(rd, s, n)
    ensures WillHaveSent(rd, Next(rd, s, c), n)
  {
    forall schedule | Exec(rd, Next(rd, s, c), schedule).main.Returned?
      ensures |Exec(rd, Next(rd, s, c), schedule).sink| == n
    {
      assert ([c] + schedule)[1..] == schedule;
      assert Exec(rd, s, [c] + schedule) == Exec(rd, Next(rd, s, c), schedule);
    }
  }

  /** When every other thread is through, the batch of worker 0 is the last. */
  lemma LastToSend(rd: Round, s: State, n: nat)
    requires Ok(rd, s) && s.workers != [] && s.workers[0].pc == Working && WillHaveSent(rd, s, n)
    requires forall k | 0 < k < |s.workers| :: s.workers[k].pc == Finished
    requires !Enabled(rd, s, Main)
    ensures n == |s.sink| + 1
  {
    assert WorkerOk(rd, s.workers[0]);
    var s1 := DriveSend(rd, s, 0);
    var s2 := Next(rd, s1, Main);
    ReachesItself(rd, s2);
    ReachesStep(rd, s1, Main, s2);
    ReachesOn(rd, s, s1, s2);
    var schedule :| Exec(rd, s, schedule) == s2;
  }

  /** While worker 0 rests, the others can move until its batch alone is missing. */
  lemma OthersMove(rd: Round, s: State, n: nat) returns (c: Choice)
    requires Ok(rd, s) && s.workers != [] && s.workers[0].pc == Working
    requires WillHaveSent(rd, s, n) && |s.sink| + 1 < n
    ensures c != Step(0) && Enabled(rd, s, c)
  {
    if k: nat :| 0 < k < |s.workers| && s.workers[k].pc != Finished {
      c := Step(k);
    } else {
      c := Main;
      if !Enabled(rd, s, Main) {
        LastToSend(rd, s, n);
      }
    }
  }

  /** They move until `m` batches have been sent. */
  lemma {:induction false} DriveOthers(rd: Round, s: State, m: nat, n: nat) returns (s': State)
    requires Ok(rd, s) && s.workers != [] && s.workers[0].pc == Working
    requires WillHaveSent(rd, s, n) && |s.sink| <= m < n
    ensures Reaches(rd, s, s') && |s'.sink| == m
    ensures s'.workers != [] && s'.workers[0] == s.workers[0]
    decreases StepsLeft(rd, s)
  {
    if |s.sink| == m {
      s' := s;
      ReachesItself(rd, s);
    } else {
      var c := OthersMove(rd, s, n);
      StepCounts(rd, s, c);
      StillWillHaveSent(rd, s, c, n);
      s' := DriveOthers(rd, Next(rd, s, c), m, n);
      ReachesStep(rd, s, c, s');
    }
  }

  lemma {:induction false} SinkGrows(rd: Round, s: State, schedule: seq<Choice>)
    requires Ok(rd, s)
    ensures s.sink <= Exec(rd, s, schedule).sink
    decreases |schedule|
  {
    if schedule != [] {
      SinkGrows(rd, if Enabled(rd, s, schedule[0]) then Next(rd, s, schedule[0]) else s, schedule[1..]);
    }
  }

  /** Worker 0's batch can come at any place `m` among those that have not been sent. */
  lemma SendAt(rd: Round, s0: State, s: State, m: nat, n: nat) returns (schedule: seq<Choice>)
    requires Reaches(rd, s0, s) && s.workers != [] && s.workers[0].pc == Working && WorkerOk(rd, s.workers[0])
    requires WillHaveSent(rd, s, n) && |s.sink| <= m < n
    ensures var s' := Exec(rd, s0, schedule);
            && s'.main.Returned? && m < |s'.sink|
            && s'.sink[m] == s.workers[0].batch + Future(rd, s.workers[0])
  {
    var s1 := DriveOthers(rd, s, m, n);
    var s2 := DriveSend(rd, s1, 0);
    var rest := Complete(rd, s2);
    var s3 := Exec(rd, s2, rest);
    SinkGrows(rd, s2, rest);
    assert s3.sink[m] == s2.sink[m];
    assert Reaches(rd, s2, s3);
    ReachesOn(rd, s1, s2, s3);
    ReachesOn(rd, s, s1, s3);
    ReachesOn(rd, s0, s, s3);
    schedule :| Exec(rd, s0, schedule) == s3;
  }

  // ----- up to the first spawn

  predicate Spawns(s: Scenario) {
    s.Active() && s.concurrency > 0
  }

  /** The main thread is where its scenario takes it. */
  predicate OnTrack(rd: Round, pc: MainPc) {
    && PcOk(rd, pc)
    && (pc.Emitting? || pc.Adding? || pc.Sending? ==>
          rd.scenarios[pc.i].Active() && rd.scenarios[pc.i].concurrency == 0)
    && (pc.Spawning? ==> Spawns(rd.scenarios[pc.i]))
  }

  lemma StaysOnTrack(rd: Round, s: State, c: Choice)
    requires Ok(rd, s) && Enabled(rd, s, c) && OnTrack(rd, s.main)
    ensures OnTrack(rd, Next(rd, s, c).main)
  {
  }

  /** The batches that the scenarios from number `i` on send: one a thread. */
  function BatchesFrom(scns: seq<Scenario>, i: nat): nat
    requires i <= |scns|
    decreases |scns| - i
  {
    if i == |scns| then 0
    else
      (if !scns[i].Active() then 0 else if scns[i].concurrency == 0 then 1 else scns[i].concurrency) +
      BatchesFrom(scns, i + 1)
  }

  /** Those of them that compete with the first worker, and its own. */
  function LateFrom(scns: seq<Scenario>, i: nat): nat
    requires i <= |scns|
    decreases |scns| - i
  {
    if i == |scns| then 0
    else if Spawns(scns[i]) then BatchesFrom(scns, i)
    else LateFrom(scns, i + 1)
  }

  /** The main thread moves until it has spawned a worker, or returned without one. */
  lemma {:induction false} DriveToSpawn(rd: Round, st: Store, s: State) returns (s': State)
    requires StoreOk(rd, st) && Ok(rd, s) && SentInOrder(rd, st, s) && s.workers == []
    requires OnTrack(rd, s.main) && !s.main.Returned? && (s.main.Spawning? ==> s.main.wi == 0)
    ensures Reaches(rd, s, s') && OnTrack(rd, s'.main)
    ensures s'.sink == st.sink + Reference(rd, st).early
    ensures s'.main.Returned? || s'.main.Spawning?
    ensures s'.main.Returned? ==> s'.workers == [] && LateFrom(rd.scenarios, s.main.i) == 0
    ensures s'.main.Spawning? ==>
              && s'.main.wi == 1 && |s'.workers| == 1 && s'.workers[0].pc == Working
              && LateFrom(rd.scenarios, s.main.i) == BatchesFrom(rd.scenarios, s'.main.i)
    decreases StepsLeft(rd, s)
  {
    var s1 := Next(rd, s, Main);
    RestStep(rd, s);
    StepCounts(rd, s, Main);
    StepSendsInOrder(rd, st, s, Main);
    StaysOnTrack(rd, s, Main);
    if s.main.Spawning? {
      assert Rest(rd, s.main, s.base, s.volumes).early == [];
      assert s.sink + [] == s.sink;
      s' := s1;
      ReachesItself(rd, s1);
    } else if s1.main.Returned? {
      assert Rest(rd, s.main, s.base, s.volumes).early == [];
      assert s.sink + [] == s.sink;
      s' := s1;
      ReachesItself(rd, s1);
    } else {
      s' := DriveToSpawn(rd, st, s1);
    }
    ReachesStep(rd, s, Main, s');
  }

  // ----- how many batches compete

  function UnsentBag(w: Worker): multiset<nat> {
    if w.pc == Finished then multiset{} else multiset{w.shard}
  }

  function MainUnsent(rd: Round, pc: MainPc): nat
    requires PcOk(rd, pc)
  {
    match pc
    case AtScenario(i, _) => BatchesFrom(rd.scenarios, i)
    case Spawning(i, _, _, wi) => rd.scenarios[i].concurrency - wi + BatchesFrom(rd.scenarios, i + 1)
    case Returned => 0
    case _ => 1 + BatchesFrom(rd.scenarios, pc.i + 1)
  }

  /** The batches sent, and those still to be sent. */
  function Batches(rd: Round, s: State): nat
    requires Ok(rd, s)
  {
    |s.sink| + |Sum(s.workers, UnsentBag)| + MainUnsent(rd, s.main)
  }

  lemma StepKeepsBatches(rd: Round, s: State, c: Choice)
    requires Ok(rd, s) && Enabled(rd, s, c)
    ensures Batches(rd, Next(rd, s, c)) == Batches(rd, s)
  {
    match c
    case Main => MainKeepsBatches(rd, s);
    case Step(k) =>
      var w, w' := s.workers[k], StepWorker(rd, s, k).workers[k];
      SizeUpdate(s.workers, k, w', UnsentBag);
      WorkerBatch(rd, s, k);
  }

  lemma WorkerBatch(rd: Round, s: State, k: nat)
    requires Ok(rd, s) && Enabled(rd, s, Step(k))
    ensures var s' := StepWorker(rd, s, k);
            && s'.main == s.main && s'.workers == s.workers[k := s'.workers[k]]
            && |s'.sink| + |UnsentBag(s'.workers[k])| == |s.sink| + |UnsentBag(s.workers[k])|
  {
  }

  lemma MainKeepsBatches(rd: Round, s: State)
    requires Ok(rd, s) && Enabled(rd, s, Main)
    ensures Batches(rd, StepMain(rd, s)) == Batches(rd, s)
  {
    MainSends(rd, s);
    SpawnedUnsent(s.workers, StepMain(rd, s).workers);
  }

  lemma SpawnedUnsent(ws: seq<Worker>, ws': seq<Worker>)
    requires ws <= ws' && |ws'| <= |ws| + 1
    requires |ws'| > |ws| ==> ws'[|ws|].pc == Working
    ensures |Sum(ws', UnsentBag)| == |Sum(ws, UnsentBag)| + |ws'| - |ws|
  {
    if |ws'| > |ws| {
      assert ws' == ws + [ws'[|ws|]];
      SizeSnoc(ws, ws'[|ws|], UnsentBag);
    } else {
      assert ws' == ws;
    }
  }

  /** What a step of the main thread takes from its own batches is sent or given to a worker. */
  lemma MainSends(rd: Round, s: State)
    requires Ok(rd, s) && Enabled(rd, s, Main)
    ensures var s' := StepMain(rd, s);
            && s.workers <= s'.workers && |s'.workers| <= |s.workers| + 1
            && (|s'.workers| > |s.workers| ==> s'.workers[|s.workers|].pc == Working)
            && |s'.sink| + |s'.workers| + MainUnsent(rd, s'.main) == |s.sink| + |s.workers| + MainUnsent(rd, s.main)
  {
  }

  lemma {:induction false} AllSent(ws: seq<Worker>)
    requires AllFinished(ws)
    ensures Sum(ws, UnsentBag) == multiset{}
  {
    if ws != [] {
      AllSent(ws[..|ws| - 1]);
    }
  }

  lemma {:induction false} SendsItsBatches(rd: Round, s: State, schedule: seq<Choice>)
    requires Ok(rd, s)
    ensures var s' := Exec(rd, s, schedule);
            Batches(rd, s') == Batches(rd, s) && (s'.main.Returned? ==> |s'.sink| == Batches(rd, s))
    decreases |schedule|
  {
    if schedule == [] {
      if s.main.Returned? {
        AllSent(s.workers);
      }
    } else if Enabled(rd, s, schedule[0]) {
      StepKeepsBatches(rd, s, schedule[0]);
      SendsItsBatches(rd, Next(rd, s, schedule[0]), schedule[1..]);
    } else {
      SendsItsBatches(rd, s, schedule[1..]);
    }
  }

  lemma ReachesTheSame(rd: Round, s: State, s': State)
    requires Reaches(rd, s, s')
    ensures Batches(rd, s) == Batches(rd, s') && WillHaveSent(rd, s', Batches(rd, s))
  {
    var p :| Exec(rd, s, p) == s';
    SendsItsBatches(rd, s, p);
    forall schedule | Exec(rd, s', schedule).main.Returned?
      ensures |Exec(rd, s', schedule).sink| == Batches(rd, s)
    {
      SendsItsBatches(rd, s', schedule);
    }
  }

  /** From its beginning a round comes to its first spawn, where the late batches are all still to be sent, or
      to its end, and then there are none. */
  lemma FirstSpawn(rd: Round, st: Store) returns (s: State)
    requires StoreOk(rd, st)
    ensures Reaches(rd, Begin(rd, st), s)
    ensures s.sink == st.sink + Reference(rd, st).early
    ensures WillHaveSent(rd, s, |s.sink| + LateFrom(rd.scenarios, 0))
    ensures LateFrom(rd.scenarios, 0) == 0 || (s.workers != [] && s.workers[0].pc == Working)
  {
    var s0 := Begin(rd, st);
    s := DriveToSpawn(rd, st, s0);
    ReachesTheSame(rd, s0, s);
    if s.main.Spawning? {
      assert s.workers == [s.workers[0]];
      SumOne(s.workers[0], UnsentBag);
    }
  }

  lemma SinkExtended(rd: Round, st: Store, schedule: seq<Choice>)
    requires Room(rd) && StoreOk(rd, st) && Exec(rd, Begin(rd, st), schedule).main.Returned?
    ensures BatchesExtended(rd, st.sink, Reference(rd, st), Exec(rd, Begin(rd, st), schedule).sink)
  {
    RoundIsDeterministic(rd, st, schedule);
  }

  /** There are as many late batches as the scenarios say, whatever they emit. */
  lemma LateCount(rd: Round, st: Store)
    requires Room(rd) && StoreOk(rd, st)
    ensures |Late(rd, st)| == LateFrom(rd.scenarios, 0)
  {
    var s := FirstSpawn(rd, st);
    var rest := Complete(rd, s);
    var s' := Exec(rd, s, rest);
    assert Reaches(rd, s, s');
    ReachesOn(rd, Begin(rd, st), s, s');
    var schedule :| Exec(rd, Begin(rd, st), schedule) == s';
    SinkExtended(rd, st, schedule);
    LateComeLast(rd, st.sink, Reference(rd, st), s'.sink);
  }

  // ----- the theorem

  /** What a round sends after the first spawn, if that does not depend on the schedule, is all the same. */
  lemma SameEverywhere(rd: Round, st: Store, s: State, n: nat, sink: seq<seq<LogRecord>>)
    requires StoreOk(rd, st) && Reaches(rd, Begin(rd, st), s) && WillHaveSent(rd, s, n)
    requires s.workers != [] && s.workers[0].pc == Working && WorkerOk(rd, s.workers[0])
    requires |sink| == n
    requires forall q | Exec(rd, Begin(rd, st), q).main.Returned? :: Exec(rd, Begin(rd, st), q).sink == sink
    ensures forall m: nat | |s.sink| <= m < n :: sink[m] == s.workers[0].batch + Future(rd, s.workers[0])
  {
    forall m: nat | |s.sink| <= m < n
      ensures sink[m] == s.workers[0].batch + Future(rd, s.workers[0])
    {
      var q := SendAt(rd, Begin(rd, st), s, m, n);
    }
  }

  lemma OneValueIsAlike<T>(xs: seq<T>, n: nat, x: T)
    requires n <= |xs| && forall m: nat | n <= m < |xs| :: xs[m] == x
    ensures Alike(multiset(xs[n..]))
  {
    forall a | a in multiset(xs[n..])
      ensures a == x
    {
      assert a in xs[n..];
    }
  }

  lemma LateTail(rd: Round, st: Store, sink: seq<seq<LogRecord>>)
    requires Room(rd) && StoreOk(rd, st) && BatchesExtended(rd, st.sink, Reference(rd, st), sink)
    ensures var n := |st.sink| + |Reference(rd, st).early|;
            n + LateFrom(rd.scenarios, 0) == |sink| && multiset(sink[n..]) == Late(rd, st)
  {
    LateComeLast(rd, st.sink, Reference(rd, st), sink);
    LateCount(rd, st);
    TailSize(sink, |st.sink| + |Reference(rd, st).early|);
  }

  lemma TailSize<T>(xs: seq<T>, n: nat)
    requires n <= |xs|
    ensures n + |multiset(xs[n..])| == |xs|
  {
    assert |multiset(xs[n..])| == |xs[n..]|;
  }

  lemma FixedOrderIsAlike(rd: Round, st: Store)
    requires Room(rd) && StoreOk(rd, st) && OrderFixed(rd, st)
    ensures Alike(Late(rd, st))
  {
    var s := FirstSpawn(rd, st);
    var p := Complete(rd, Begin(rd, st));
    var sink := Exec(rd, Begin(rd, st), p).sink;
    SinkExtended(rd, st, p);
    LateTail(rd, st, sink);
    if LateFrom(rd.scenarios, 0) > 0 {
      assert WorkerOk(rd, s.workers[0]);
      SameEverywhere(rd, st, s, |sink|, sink);
      OneValueIsAlike(sink, |s.sink|, s.workers[0].batch + Future(rd, s.workers[0]));
    }
  }

  /** The order of a round's batches is the same on all schedules exactly when those that are sent once a
      worker has been spawned are all alike. */
  lemma OrderFixedIff(rd: Round, st: Store)
    requires Room(rd) && StoreOk(rd, st)
    ensures OrderFixed(rd, st) <==> Alike(Late(rd, st))
  {
    if Alike(Late(rd, st)) {
      forall p, q | Exec(rd, Begin(rd, st), p).main.Returned? && Exec(rd, Begin(rd, st), q).main.Returned?
        ensures Exec(rd, Begin(rd, st), p).sink == Exec(rd, Begin(rd, st), q).sink
      {
        SinkExtended(rd, st, p);
        SinkExtended(rd, st, q);
        ExtensionsInOrder(rd, st.sink, Reference(rd, st),
                          Exec(rd, Begin(rd, st), p).sink, Exec(rd, Begin(rd, st), q).sink);
      }
    }
    if OrderFixed(rd, st) {
      FixedOrderIsAlike(rd, st);
    }
  }

  lemma TwoAreMore<T>(m: multiset<T>, a: T, b: T)
    requires a in m && b in m && a != b
    ensures |m| >= 2
  {
    assert m == (m - multiset{a, b}) + multiset{a, b};
  }

  lemma OneIsAlike<T>(m: multiset<T>)
    requires |m| <= 1
    ensures Alike(m)
  {
    forall a, b | a in m && b in m
      ensures a == b
    {
      if a != b {
        TwoAreMore(m, a, b);
      }
    }
  }

  // ----- whole runs

  lemma RoundsIdentical(rd: Round, st: Store, a: Store, b: Store)
    requires StoreOk(rd, st) && Alike(Late(rd, st))
    requires ExtendsByReference(rd, st, a) && ExtendsByReference(rd, st, b)
    ensures a == b
  {
    SameRecords(rd, st, Reference(rd, st), a, b);
    ExtensionsInOrder(rd, st.sink, Reference(rd, st), a.sink, b.sink);
  }

  /** The rounds of a run each send late batches that are alike. */
  ghost predicate AllAlike(cfg: RunCfg, past: seq<Store>)
    requires History(cfg, past)
  {
    forall k | 0 <= k < |past| - 1 :: Alike(Late(cfg.RoundAt(k), past[k]))
  }

  lemma AlikeAt(cfg: RunCfg, p: seq<Store>, k: nat)
    requires History(cfg, p) && AllAlike(cfg, p) && k + 1 < |p|
    ensures StoreOk(cfg.RoundAt(k), p[k]) && Alike(Late(cfg.RoundAt(k), p[k]))
  {
  }

  lemma NextIdentical(cfg: RunCfg, p: seq<Store>, q: seq<Store>, k: nat)
    requires History(cfg, p) && History(cfg, q) && k + 1 < |p| && k + 1 < |q|
    requires p[k] == q[k] && AllAlike(cfg, p)
    ensures p[k + 1] == q[k + 1]
  {
    AlikeAt(cfg, p, k);
    assert ExtendsByReference(cfg.RoundAt(k), p[k], p[k + 1]) && ExtendsByReference(cfg.RoundAt(k), q[k], q[k + 1]);
    RoundsIdentical(cfg.RoundAt(k), p[k], p[k + 1], q[k + 1]);
  }

  lemma {:induction false} StepByStep<T>(p: seq<T>, q: seq<T>, k: nat)
    requires k < |p| && k < |q| && p[0] == q[0]
    requires forall i | 0 <= i < k :: p[i] == q[i] ==> p[i + 1] == q[i + 1]
    ensures p[k] == q[k]
    decreases k
  {
    if k > 0 {
      StepByStep(p, q, k - 1);
    }
  }

  lemma HistoriesIdentical(cfg: RunCfg, p: seq<Store>, q: seq<Store>, k: nat)
    requires History(cfg, p) && History(cfg, q) && k < |p| && k < |q| && AllAlike(cfg, p)
    ensures p[k] == q[k]
  {
    forall i | 0 <= i < k
      ensures p[i] == q[i] ==> p[i + 1] == q[i + 1]
    {
      if p[i] == q[i] {
        NextIdentical(cfg, p, q, i);
      }
    }
    StepByStep(p, q, k);
  }

  lemma {:induction false} PastGrows(cfg: RunCfg, r: RunState, schedule: seq<RunChoice>)
    requires Wf(cfg, r)
    ensures r.past <= RunExec(cfg, r, schedule).past
    decreases |schedule|
  {
    if schedule != [] {
      var c := schedule[0];
      PastGrows(cfg, if RunEnabled(cfg, r, c) then RunNext(cfg, r, c) else r, schedule[1..]);
    }
  }

  /** The part of a run up to where round `k` is about to begin. */
  lemma {:induction false} BeforeRound(cfg: RunCfg, r: RunState, schedule: seq<RunChoice>, k: nat)
    returns (pre: seq<RunChoice>)
    requires Wf(cfg, r) && !RunExec(cfg, r, schedule).cancelled
    requires |r.past| - 1 <= k < |RunExec(cfg, r, schedule).past| - 1
    requires |r.past| - 1 < k || r.loop.NotStarted? || r.loop.Head?
    ensures var r' := RunExec(cfg, r, pre);
            r'.loop.Head? && !r'.cancelled && r'.past == RunExec(cfg, r, schedule).past[..k + 1]
    decreases |schedule|
  {
    if |r.past| - 1 == k && r.loop.Head? {
      pre := [];
      PastGrows(cfg, r, schedule);
      if r.cancelled {
        StaysCancelled(cfg, r, schedule);
      }
    } else {
      var c := schedule[0];
      var r1 := if RunEnabled(cfg, r, c) then RunNext(cfg, r, c) else r;
      var rest := BeforeRound(cfg, r1, schedule[1..], k);
      pre := [c] + rest;
      assert pre[1..] == rest;
    }
  }

  /** A run whose round `k` takes the given schedule. */
  lemma RoundThen(cfg: RunCfg, pre: seq<RunChoice>, st: Store, round: seq<Choice>) returns (schedule: seq<RunChoice>)
    requires cfg.Valid()
    requires var r := RunExec(cfg, Boot(cfg), pre);
             && r.loop.Head? && !r.cancelled && r.time < cfg.end && st == r.past[|r.past| - 1]
    requires var rd := cfg.RoundAt(|RunExec(cfg, Boot(cfg), pre).past| - 1);
             StoreOk(rd, st) && Exec(rd, Begin(rd, st), round).main.Returned?
    ensures var r := RunExec(cfg, Boot(cfg), pre);
            var rd := cfg.RoundAt(|r.past| - 1);
            RunExec(cfg, Boot(cfg), schedule).past == r.past + [End(Exec(rd, Begin(rd, st), round))]
  {
    var r0 := Boot(cfg);
    ThenOne(cfg, r0, pre, Loop);
    RunExecAppend(cfg, r0, pre + [Loop], Threads(round));
    ThreadsRun(cfg, RunExec(cfg, r0, pre + [Loop]), round);
    ThenOne(cfg, r0, pre + [Loop] + Threads(round), Loop);
    schedule := pre + [Loop] + Threads(round) + [Loop];
  }

  lemma AnotherOrder(rd: Round, st: Store, sink: seq<seq<LogRecord>>) returns (q: seq<Choice>)
    requires Room(rd) && StoreOk(rd, st) && !Alike(Late(rd, st))
    ensures Exec(rd, Begin(rd, st), q).main.Returned? && Exec(rd, Begin(rd, st), q).sink != sink
  {
    OrderFixedIff(rd, st);
    var p, p' :| Exec(rd, Begin(rd, st), p).main.Returned? && Exec(rd, Begin(rd, st), p').main.Returned?
                 && Exec(rd, Begin(rd, st), p).sink != Exec(rd, Begin(rd, st), p').sink;
    q := if Exec(rd, Begin(rd, st), p).sink == sink then p' else p;
  }

  /** If the late batches of round `k` are not alike, some run leaves another store after it. */
  lemma OtherRun(cfg: RunCfg, run: seq<RunChoice>, k: nat) returns (other: seq<RunChoice>)
    requires cfg.Valid() && !RunExec(cfg, Boot(cfg), run).cancelled
    requires History(cfg, RunExec(cfg, Boot(cfg), run).past) && k + 1 < |RunExec(cfg, Boot(cfg), run).past|
    requires var past := RunExec(cfg, Boot(cfg), run).past;
             !Alike(Late(cfg.RoundAt(k), past[k]))
    ensures k + 1 < |RunExec(cfg, Boot(cfg), other).past|
    ensures RunExec(cfg, Boot(cfg), other).past[k + 1] != RunExec(cfg, Boot(cfg), run).past[k + 1]
  {
    var past, rd := RunExec(cfg, Boot(cfg), run).past, cfg.RoundAt(k);
    ReceiverHasRoom(rd);
    var pre := BeforeRound(cfg, Boot(cfg), run, k);
    assert past[..k + 1][k] == past[k] && rd.time < cfg.end;
    var round := AnotherOrder(rd, past[k], past[k + 1].sink);
    other := RoundThen(cfg, pre, past[k], round);
    assert RunExec(cfg, Boot(cfg), other).past[k + 1] == End(Exec(rd, Begin(rd, past[k]), round));
  }

  /** All runs that come as far leave what the given one leaves. */
  ghost predicate AllIdentical(cfg: RunCfg, past: seq<Store>)
    requires cfg.Valid()
  {
    forall other, k: nat | k < |past| && k < |RunExec(cfg, Boot(cfg), other).past| ::
      RunExec(cfg, Boot(cfg), other).past[k] == past[k]
  }

  /** Identical output, to the order of the batches: every run leaves after every round what a given one that
      was not cancelled leaves exactly when in every round of this one the late batches are all alike. */
  lemma RunsIdenticalIff(cfg: RunCfg, run: seq<RunChoice>)
    requires cfg.Valid() && !RunExec(cfg, Boot(cfg), run).cancelled
    ensures var past := RunExec(cfg, Boot(cfg), run).past;
            History(cfg, past) && (AllIdentical(cfg, past) <==> AllAlike(cfg, past))
  {
    var past := RunExec(cfg, Boot(cfg), run).past;
    BootInv(cfg);
    RunKeeps(cfg, Boot(cfg), run);
    if AllAlike(cfg, past) {
      forall other, k: nat | k < |past| && k < |RunExec(cfg, Boot(cfg), other).past|
        ensures RunExec(cfg, Boot(cfg), other).past[k] == past[k]
      {
        RunKeeps(cfg, Boot(cfg), other);
        HistoriesIdentical(cfg, past, RunExec(cfg, Boot(cfg), other).past, k);
      }
    } else {
      var k: nat :| k < |past| - 1 && !Alike(Late(cfg.RoundAt(k), past[k]));
      var other := OtherRun(cfg, run, k);
    }
  }

  /** That is so, whatever the scenarios emit, where they leave at most one late batch, as when none is
      concurrent or when the last one has a single worker. */
  lemma RunsIdentical(cfg: RunCfg, run: seq<RunChoice>)
    requires cfg.Valid() && LateFrom(cfg.scenarios, 0) <= 1
    ensures AllIdentical(cfg, RunExec(cfg, Boot(cfg), run).past)
  {
    var past := RunExec(cfg, Boot(cfg), run).past;
    BootInv(cfg);
    RunKeeps(cfg, Boot(cfg), run);
    forall k | 0 <= k < |past| - 1
      ensures Alike(Late(cfg.RoundAt(k), past[k]))
    {
      ReceiverHasRoom(cfg.RoundAt(k));
      LateCount(cfg.RoundAt(k), past[k]);
      OneIsAlike(Late(cfg.RoundAt(k), past[k]));
    }
    forall other, k: nat | k < |past| && k < |RunExec(cfg, Boot(cfg), other).past|
      ensures RunExec(cfg, Boot(cfg), other).past[k] == past[k]
    {
      RunKeeps(cfg, Boot(cfg), other);
      HistoriesIdentical(cfg, past, RunExec(cfg, Boot(cfg), other).past, k);
    }
  }
}
