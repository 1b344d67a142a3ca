/** A concurrent scenario does the same work as a sequential one. */
module WorkShare {
  import opened Rounds
  import Partition

  /** The jobs of the first `k` workers, one worker after the other. */
  function AllJobs(s: Scenario, logs: int, k: nat): seq<nat>
    requires s.concurrency > 0
  {
    if k == 0 then [] else AllJobs(s, logs, k - 1) + WorkerJobs(s, logs, k - 1, s.scale / s.concurrency)
  }

  lemma OffsetWhenDivides(wi: nat, scale: nat, concurrency: nat)
    requires concurrency > 0 && scale % concurrency == 0
    ensures Partition.Offset(wi, scale, concurrency) == wi * (scale / concurrency)
  {
    var q := scale / concurrency;
    assert wi * scale == concurrency * (wi * q) by {
      assert scale == concurrency * q;
    }
    Partition.Exact(concurrency, wi * q);
  }

  lemma {:induction false} WorkerContinues(s: Scenario, logs: int, wi: nat, n: nat)
    requires s.concurrency > 0 && s.scale % s.concurrency == 0
    requires wi < s.concurrency && n <= s.scale / s.concurrency
    requires wi * (s.scale / s.concurrency) + n <= s.scale
    ensures SequentialJobs(s, logs, wi * (s.scale / s.concurrency)) + WorkerJobs(s, logs, wi, n)
         == SequentialJobs(s, logs, wi * (s.scale / s.concurrency) + n)
    decreases n
  {
    var start := wi * (s.scale / s.concurrency);
    if n == 0 {
      assert SequentialJobs(s, logs, start) + [] == SequentialJobs(s, logs, start);
    } else {
      WorkerContinues(s, logs, wi, n - 1);
      OffsetWhenDivides(wi, s.scale, s.concurrency);
      assert Partition.Instance(n - 1, wi, s.scale, s.concurrency) == start + n - 1;
      var more := Times(start + n - 1, s.perInstance(logs, start + n - 1));
      assert WorkerJobs(s, logs, wi, n) == WorkerJobs(s, logs, wi, n - 1) + more;
      assert SequentialJobs(s, logs, start) + (WorkerJobs(s, logs, wi, n - 1) + more)
          == (SequentialJobs(s, logs, start) + WorkerJobs(s, logs, wi, n - 1)) + more;
      assert SequentialJobs(s, logs, start + n) == SequentialJobs(s, logs, start + (n - 1)) + more;
    }
  }

  lemma OneShareLess(k: nat, q: nat)
    requires k > 0
    ensures (k - 1) * q + q == k * q
  {
  }

  lemma {:induction false} WorkersAreSequential(s: Scenario, logs: int, k: nat)
    requires s.concurrency > 0 && s.scale % s.concurrency == 0 && k <= s.concurrency
    requires k * (s.scale / s.concurrency) <= s.scale
    ensures AllJobs(s, logs, k) == SequentialJobs(s, logs, k * (s.scale / s.concurrency))
    decreases k
  {
    if k > 0 {
      var q := s.scale / s.concurrency;
      OneShareLess(k, q);
      WorkersAreSequential(s, logs, k - 1);
      WorkerContinues(s, logs, k - 1, q);
    }
  }

  /** With a concurrency that divides the scale, as validation demands, the workers together run exactly
      the jobs of the sequential path, in worker order: every instance, each as often as it is due. */
  lemma ConcurrencyKeepsTheWork(s: Scenario, logs: int)
    requires s.concurrency > 0 && s.scale % s.concurrency == 0
    ensures AllJobs(s, logs, s.concurrency) == SequentialJobs(s, logs, s.scale)
  {
    assert s.scale == s.concurrency * (s.scale / s.concurrency);
    WorkersAreSequential(s, logs, s.concurrency);
  }

  /** Instance `idx` is due `perInstance(logs, idx)` times, and so at least once in a lively scenario. */
  lemma {:induction false} InstanceShare(s: Scenario, logs: int, n: nat, idx: nat)
    requires n <= s.scale
    ensures multiset(SequentialJobs(s, logs, n))[idx] ==
            if idx < n && s.perInstance(logs, idx) > 0 then s.perInstance(logs, idx) else 0
  {
    if n > 0 {
      InstanceShare(s, logs, n - 1, idx);
      TimesCount(n - 1, s.perInstance(logs, n - 1), idx);
    }
  }

  lemma {:induction false} TimesCount(i: nat, n: int, idx: nat)
    ensures multiset(Times(i, n))[idx] == if idx == i && n > 0 then n else 0
    decreases if n > 0 then n else 0
  {
    if n > 0 {
      TimesCount(i, n - 1, idx);
      assert Times(i, n) == Times(i, n - 1) + [i];
    }
  }
}
