/** A round always comes to an end, and takes the same number of steps on every schedule. */
module Progress {
  import opened Rounds
  import opened Determinism

  function WorkerWork(w: Worker): nat {
    |w.jobs| + match w.pc case Working => 2 case Counted => 1 case Finished => 0
  }

  function Work(ws: seq<Worker>): nat {
    if ws == [] then 0 else Work(ws[..|ws| - 1]) + WorkerWork(ws[|ws| - 1])
  }

  lemma {:induction false} WorkUpdate(ws: seq<Worker>, k: nat, w: Worker)
    requires k < |ws|
    ensures Work(ws[k := w]) == Work(ws) - WorkerWork(ws[k]) + WorkerWork(w)
  {
    var n := |ws| - 1;
    if k == n {
      assert ws[k := w][..n] == ws[..n];
    } else {
      assert ws[k := w][..n] == ws[..n][k := w];
      WorkUpdate(ws[..n], k, w);
    }
  }

  lemma {:induction false} WorkDone(ws: seq<Worker>)
    requires forall k | 0 <= k < |ws| :: ws[k].pc == Finished && ws[k].jobs == []
    ensures Work(ws) == 0
  {
    if ws != [] {
      WorkDone(ws[..|ws| - 1]);
    }
  }

  /** The steps still to be taken, by the main thread and by the workers there are and will be. */
  function StepsLeft(rd: Round, s: State): nat
    requires Ok(rd, s)
  {
    Rest(rd, s.main, s.base, s.volumes).steps + Work(AllWorkers(rd, s))
  }

  lemma StepCounts(rd: Round, s: State, c: Choice)
    requires Ok(rd, s) && Enabled(rd, s, c)
    ensures StepsLeft(rd, Next(rd, s, c)) == StepsLeft(rd, s) - 1
  {
    var s' := Next(rd, s, c);
    match c
    case Main =>
      RestStep(rd, s);
      MainApplies(rd, s);
      SameWorkers(s.workers, s'.workers, Rest(rd, s.main, s.base, s.volumes), Rest(rd, s'.main, s'.base, s'.volumes),
                  MainEffect(rd, s.main, s.base));
    case Step(k) =>
      assert AllWorkers(rd, s') == AllWorkers(rd, s)[k := s'.workers[k]];
      WorkUpdate(AllWorkers(rd, s), k, s'.workers[k]);
  }

  /** No deadlock: until the round has returned, some thread can move. */
  lemma SomeThreadMoves(rd: Round, s: State) returns (c: Choice)
    requires Ok(rd, s) && !s.main.Returned?
    ensures Enabled(rd, s, c)
  {
    if k: nat :| k < |s.workers| && s.workers[k].pc != Finished {
      c := Step(k);
    } else {
      c := Main;
    }
  }

  function Taken(rd: Round, s: State, schedule: seq<Choice>): nat
    requires Ok(rd, s)
    decreases |schedule|
  {
    if schedule == [] then 0
    else if Enabled(rd, s, schedule[0]) then 1 + Taken(rd, Next(rd, s, schedule[0]), schedule[1..])
    else Taken(rd, s, schedule[1..])
  }

  lemma {:induction false} TakenPlusLeft(rd: Round, s: State, schedule: seq<Choice>)
    requires Ok(rd, s)
    ensures Taken(rd, s, schedule) + StepsLeft(rd, Exec(rd, s, schedule)) == StepsLeft(rd, s)
    decreases |schedule|
  {
    if schedule != [] {
      if Enabled(rd, s, schedule[0]) {
        StepCounts(rd, s, schedule[0]);
        TakenPlusLeft(rd, Next(rd, s, schedule[0]), schedule[1..]);
      } else {
        TakenPlusLeft(rd, s, schedule[1..]);
      }
    }
  }

  /** Termination: no schedule takes more than `StepsLeft` steps, and it has returned exactly when it has
      taken all of them. */
  lemma RoundTakesItsSteps(rd: Round, s: State, schedule: seq<Choice>)
    requires Ok(rd, s)
    ensures Taken(rd, s, schedule) <= StepsLeft(rd, s)
    ensures Exec(rd, s, schedule).main.Returned? <==> Taken(rd, s, schedule) == StepsLeft(rd, s)
  {
    TakenPlusLeft(rd, s, schedule);
    var s' := Exec(rd, s, schedule);
    if s'.main.Returned? {
      assert AllWorkers(rd, s') == s'.workers;
      assert forall k | 0 <= k < |s'.workers| :: WorkerOk(rd, s'.workers[k]);
      WorkDone(s'.workers);
    } else {
      var c := SomeThreadMoves(rd, s');
      StepCounts(rd, s', c);
    }
  }

  lemma {:induction false} ExecAppend(rd: Round, s: State, a: seq<Choice>, b: seq<Choice>)
    requires Ok(rd, s)
    ensures Exec(rd, s, a + b) == Exec(rd, Exec(rd, s, a), b)
    decreases |a|
  {
    if a == [] {
      assert a + b == b;
    } else {
      assert (a + b)[1..] == a[1..] + b;
      ExecAppend(rd, if Enabled(rd, s, a[0]) then Next(rd, s, a[0]) else s, a[1..], b);
    }
  }

  /** From every state a round can be completed. */
  lemma {:induction false} Complete(rd: Round, s: State) returns (schedule: seq<Choice>)
    requires Ok(rd, s)
    ensures Exec(rd, s, schedule).main.Returned?
    decreases StepsLeft(rd, s)
  {
    if s.main.Returned? {
      schedule := [];
    } else {
      var c := SomeThreadMoves(rd, s);
      StepCounts(rd, s, c);
      var rest := Complete(rd, Next(rd, s, c));
      schedule := [c] + rest;
      assert schedule[1..] == rest;
    }
  }
}
