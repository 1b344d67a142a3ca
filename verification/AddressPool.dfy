/** The pool of addresses that a profile draws from: validation accepts blocks from which none can be drawn. */
module AddressPool {
  import opened Rand
  import opened Records
  import Config

  /** What a text denotes: no block, one that is not of version 4, or the addresses from `base` on that agree
      with it in the first `ones` bits. */
  datatype Block = NoBlock | OtherVersion | Block(base: nat, ones: nat)

  /** The addresses `base + 1` to `base + hostMax`. */
  datatype Range = Range(base: nat, hostMax: nat)

  function Pow2(n: nat): (p: nat)
    ensures p > 0
  {
    if n == 0 then 1 else 2 * Pow2(n - 1)
  }

  /** The complement of the mask: the host bits all set. */
  function HostMax(ones: nat): nat {
    if ones >= 32 then 0 else Pow2(32 - ones) - 1
  }

  lemma HostMaxZeroIff(ones: nat)
    ensures HostMax(ones) == 0 <==> ones >= 32
  {
    if ones < 32 {
      assert Pow2(32 - ones) == 2 * Pow2(31 - ones);
    }
  }

  const DEFAULT_RANGE := Range(0x0A00_0000, 0x00FF_FFFF)

  /** The ranges of the blocks of version 4; other texts are passed over. */
  function Usable(cidrs: seq<string>, parse: string -> Block): seq<Range> {
    if cidrs == [] then []
    else
      var b := parse(cidrs[|cidrs| - 1]);
      Usable(cidrs[..|cidrs| - 1], parse) + if b.Block? then [Range(b.base, HostMax(b.ones))] else []
  }

  function RangesOf(cidrs: seq<string>, parse: string -> Block): (ranges: seq<Range>)
    ensures ranges != []
  {
    if Usable(cidrs, parse) == [] then [DEFAULT_RANGE] else Usable(cidrs, parse)
  }

  /** The first `n` addresses and the generator afterwards, or nothing if a draw panics. */
  function Pool(ranges: seq<Range>, n: nat, rng: Rng): Option<(seq<nat>, Rng)>
    requires ranges != []
  {
    if n == 0 then Some(([], rng))
    else
      match Pool(ranges, n - 1, rng)
      case None => None
      case Some((pool, r)) =>
        var (k, r1) := r.Intn(|ranges|);
        if ranges[k].hostMax == 0 then None
        else
          var (host, r2) := r1.Int63n(ranges[k].hostMax);
          Some((pool + [ranges[k].base + (host + 1)], r2))
  }

  method CollectRanges(cidrs: seq<string>, parse: string -> Block) returns (ranges: seq<Range>)
    ensures ranges == RangesOf(cidrs, parse)
  {
    ranges := [];
    for i := 0 to |cidrs|
      invariant ranges == Usable(cidrs[..i], parse)
    {
      assert cidrs[..i + 1][..i] == cidrs[..i];
      var b := parse(cidrs[i]);
      if b.Block? {
        ranges := ranges + [Range(b.base, HostMax(b.ones))];
      }
    }
    assert cidrs[..|cidrs|] == cidrs;
    if |ranges| == 0 {
      ranges := [DEFAULT_RANGE];
    }
  }

  /** A network address has no host bits, so joining the bits of the host to it is adding them. */
  method DrawAddresses(rng: Rng, ranges: seq<Range>, poolSize: nat) returns (pool: Option<seq<nat>>, next: Rng)
    requires ranges != []
    ensures Pool(ranges, poolSize, rng) == if pool.None? then None else Some((pool.value, next))
  {
    var addresses: seq<nat> := [];
    next := rng;
    for i := 0 to poolSize
      invariant Pool(ranges, i, rng) == Some((addresses, next))
    {
      var (k, r1) := next.Intn(|ranges|);
      if ranges[k].hostMax == 0 {
        PoolFailsOn(ranges, i + 1, poolSize, rng);
        return None, r1;
      }
      var (host, r2) := r1.Int63n(ranges[k].hostMax);
      addresses := addresses + [ranges[k].base + (host + 1)];
      next := r2;
    }
    pool := Some(addresses);
  }

  method BuildIPPool(rng: Rng, cidrs: seq<string>, parse: string -> Block, poolSize: nat)
    returns (pool: Option<seq<nat>>, next: Rng)
    ensures Pool(RangesOf(cidrs, parse), poolSize, rng) == if pool.None? then None else Some((pool.value, next))
  {
    var ranges := CollectRanges(cidrs, parse);
    pool, next := DrawAddresses(rng, ranges, poolSize);
  }

  lemma {:induction false} PoolFailsOn(ranges: seq<Range>, n: nat, m: nat, rng: Rng)
    requires ranges != [] && n <= m && Pool(ranges, n, rng) == None
    ensures Pool(ranges, m, rng) == None
    decreases m
  {
    if n < m {
      PoolFailsOn(ranges, n, m - 1, rng);
    }
  }

  /** Every address lies in one of the ranges, and is not its network address. */
  lemma {:induction false} AddressesInRange(ranges: seq<Range>, n: nat, rng: Rng, i: nat)
    requires ranges != [] && i < n && Pool(ranges, n, rng).Some?
    ensures |Pool(ranges, n, rng).value.0| == n
    ensures exists k :: 0 <= k < |ranges|
                        && ranges[k].base < Pool(ranges, n, rng).value.0[i] <= ranges[k].base + ranges[k].hostMax
  {
    PoolSize(ranges, n - 1, rng);
    if i < n - 1 {
      AddressesInRange(ranges, n - 1, rng, i);
      assert Pool(ranges, n, rng).value.0[i] == Pool(ranges, n - 1, rng).value.0[i];
    }
  }

  lemma {:induction false} PoolSize(ranges: seq<Range>, n: nat, rng: Rng)
    requires ranges != [] && Pool(ranges, n, rng).Some?
    ensures |Pool(ranges, n, rng).value.0| == n
  {
    if n > 0 {
      PoolSize(ranges, n - 1, rng);
    }
  }

  /** The address is made of two draws from `rng`: one for the range and one for the host within it. */
  ghost predicate Drawn(ranges: seq<Range>, rng: Rng, address: nat, next: Rng)
    requires ranges != []
  {
    var k := rng.source.ints(rng.seed, rng.calls) % |ranges|;
    var r := rng.(calls := rng.calls + [CallIntn(|ranges|)]);
    && ranges[k].hostMax > 0
    && address == ranges[k].base + 1 + r.source.ints(r.seed, r.calls) % ranges[k].hostMax
    && next == r.(calls := r.calls + [CallInt63n(ranges[k].hostMax)])
  }

  lemma LastIsDrawn(ranges: seq<Range>, n: nat, rng: Rng)
    requires ranges != [] && n > 0 && Pool(ranges, n, rng).Some?
    ensures Pool(ranges, n - 1, rng).Some? && |Pool(ranges, n, rng).value.0| == n
    ensures var (front, r) := Pool(ranges, n - 1, rng).value;
            var (pool, next) := Pool(ranges, n, rng).value;
            pool == front + [pool[n - 1]] && Drawn(ranges, r, pool[n - 1], next)
  {
    PoolSize(ranges, n, rng);
    PoolSize(ranges, n - 1, rng);
  }

  /** Every address of a pool is drawn where the one before left the generator; `draw` stands for `Drawn`. */
  lemma {:induction false} PoolIsDrawn(ranges: seq<Range>, n: nat, rng: Rng, draw: (Rng, nat, Rng) -> bool)
    returns (rngs: seq<Rng>)
    requires ranges != [] && Pool(ranges, n, rng).Some?
    requires forall r, a, r' {:trigger Drawn(ranges, r, a, r')} :: Drawn(ranges, r, a, r') ==> draw(r, a, r')
    ensures var (pool, next) := Pool(ranges, n, rng).value;
            && |pool| == n && |rngs| == n + 1 && rngs[0] == rng && rngs[n] == next
            && forall i | 0 <= i < n :: draw(rngs[i], pool[i], rngs[i + 1])
  {
    if n == 0 {
      rngs := [rng];
    } else {
      LastIsDrawn(ranges, n, rng);
      rngs := PoolIsDrawn(ranges, n - 1, rng, draw);
      rngs := rngs + [Pool(ranges, n, rng).value.1];
    }
  }

  /** Address `i` is made of two draws, where the first `i` addresses have left the generator. */
  lemma AddressesAreDrawn(ranges: seq<Range>, n: nat, rng: Rng) returns (rngs: seq<Rng>)
    requires ranges != [] && Pool(ranges, n, rng).Some?
    ensures var (pool, next) := Pool(ranges, n, rng).value;
            && |pool| == n && |rngs| == n + 1 && rngs[0] == rng && rngs[n] == next
            && forall i | 0 <= i < n :: Drawn(ranges, rngs[i], pool[i], rngs[i + 1])
  {
    rngs := PoolIsDrawn(ranges, n, rng, (r: Rng, a: nat, r': Rng) => Drawn(ranges, r, a, r'));
  }

  /** The ranges are those of the blocks of version 4, in order, and the default if there is none. */
  lemma {:induction false} UsableInOrder(a: seq<string>, b: seq<string>, parse: string -> Block)
    ensures Usable(a + b, parse) == Usable(a, parse) + Usable(b, parse)
    decreases |b|
  {
    if b == [] {
      assert a + b == a;
    } else {
      UsableInOrder(a, b[..|b| - 1], parse);
      assert (a + b)[..|a + b| - 1] == a + b[..|b| - 1];
    }
  }

  /** The block of `base` and `ones` has 2^(32 - ones) addresses, of which the range leaves out the first. */
  lemma BlockRange(cidr: string, parse: string -> Block)
    ensures match parse(cidr)
            case Block(base, ones) =>
              Usable([cidr], parse) == [Range(base, HostMax(ones))]
              && HostMax(ones) + 1 == if ones < 32 then Pow2(32 - ones) else 1
            case _ => Usable([cidr], parse) == []
  {
    assert [cidr][..0] == [] && Usable([], parse) == [];
  }

  // ----- when no draw panics

  predicate NoneEmpty(ranges: seq<Range>) {
    forall k | 0 <= k < |ranges| :: ranges[k].hostMax > 0
  }

  ghost predicate NeverPanics(ranges: seq<Range>, n: nat)
    requires ranges != []
  {
    forall rng :: Pool(ranges, n, rng).Some?
  }

  /** A source that answers every request with `k`. */
  function Always(k: nat): Rng {
    Rng(Source((seed, calls) => k, (seed, calls) => 0.0), 0, [])
  }

  lemma {:induction false} FullRangesPool(ranges: seq<Range>, n: nat, rng: Rng)
    requires ranges != [] && NoneEmpty(ranges)
    ensures Pool(ranges, n, rng).Some?
  {
    if n > 0 {
      FullRangesPool(ranges, n - 1, rng);
    }
  }

  lemma EmptyRangePanics(ranges: seq<Range>, n: nat, k: nat)
    requires n > 0 && k < |ranges| && ranges[k].hostMax == 0
    ensures Pool(ranges, n, Always(k)).None?
  {
    assert Pool(ranges, 0, Always(k)) == Some(([], Always(k)));
    assert Always(k).Intn(|ranges|).0 == k;
    PoolFailsOn(ranges, 1, n, Always(k));
  }

  lemma NeverPanicsIff(ranges: seq<Range>, n: nat)
    requires ranges != [] && n > 0
    ensures NeverPanics(ranges, n) <==> NoneEmpty(ranges)
  {
    if k :| 0 <= k < |ranges| && ranges[k].hostMax == 0 {
      EmptyRangePanics(ranges, n, k);
    } else {
      forall rng
        ensures Pool(ranges, n, rng).Some?
      {
        FullRangesPool(ranges, n, rng);
      }
    }
  }

  /** None of the blocks of version 4 is a single address. */
  predicate NoSingleAddress(cidrs: seq<string>, parse: string -> Block) {
    forall i | 0 <= i < |cidrs| && parse(cidrs[i]).Block? :: parse(cidrs[i]).ones < 32
  }

  lemma NoneEmptySnoc(ranges: seq<Range>, r: Range)
    ensures NoneEmpty(ranges + [r]) <==> NoneEmpty(ranges) && r.hostMax > 0
  {
    assert (ranges + [r])[|ranges|] == r;
    assert forall k | 0 <= k < |ranges| :: (ranges + [r])[k] == ranges[k];
  }

  lemma NoSingleSnoc(cidrs: seq<string>, parse: string -> Block)
    requires cidrs != []
    ensures var n := |cidrs| - 1;
            NoSingleAddress(cidrs, parse) <==>
              NoSingleAddress(cidrs[..n], parse) && (parse(cidrs[n]).Block? ==> parse(cidrs[n]).ones < 32)
  {
    assert forall i | 0 <= i < |cidrs| - 1 :: cidrs[..|cidrs| - 1][i] == cidrs[i];
  }

  lemma {:induction false} UsableIff(cidrs: seq<string>, parse: string -> Block)
    ensures NoneEmpty(Usable(cidrs, parse)) <==> NoSingleAddress(cidrs, parse)
  {
    if cidrs != [] {
      var n := |cidrs| - 1;
      var b := parse(cidrs[n]);
      UsableIff(cidrs[..n], parse);
      NoSingleSnoc(cidrs, parse);
      if b.Block? {
        HostMaxZeroIff(b.ones);
        NoneEmptySnoc(Usable(cidrs[..n], parse), Range(b.base, HostMax(b.ones)));
      } else {
        assert Usable(cidrs, parse) == Usable(cidrs[..n], parse);
      }
    }
  }

  lemma {:induction false} Pow2Adds(a: nat, b: nat)
    ensures Pow2(a + b) == Pow2(a) * Pow2(b)
  {
    if b > 0 {
      Pow2Adds(a, b - 1);
      assert Pow2(a + b) == 2 * Pow2(a + (b - 1));
    }
  }

  /** Without a usable block the addresses are those of 10.0.0.0/8. */
  lemma DefaultBlock(cidrs: seq<string>, parse: string -> Block)
    requires Usable(cidrs, parse) == []
    ensures RangesOf(cidrs, parse) == [Range(10 * Pow2(24), HostMax(8))]
  {
    assert Pow2(3) == 8 && Pow2(6) == 8 * Pow2(3) by {
      Pow2Adds(3, 3);
    }
    Pow2Adds(6, 6);
    Pow2Adds(12, 12);
    assert Pow2(24) == 0x100_0000;
  }

  /** Building a pool panics on no source exactly when no block is a single address. */
  lemma PoolBuildsIff(cidrs: seq<string>, parse: string -> Block, poolSize: nat)
    requires poolSize > 0
    ensures NeverPanics(RangesOf(cidrs, parse), poolSize) <==> NoSingleAddress(cidrs, parse)
  {
    NeverPanicsIff(RangesOf(cidrs, parse), poolSize);
    UsableIff(cidrs, parse);
  }

  /** Validation, which asks only for blocks, accepts a pool of a single address, and building it panics. */
  lemma SingleAddressPanics(text: string, parse: string -> Block, poolSize: nat)
    requires poolSize > 0 && parse(text).Block? && parse(text).ones == 32
    ensures Config.IPPoolOk(Config.IPPool([text], 0.0), (t: string) => !parse(t).NoBlock?)
    ensures !NeverPanics(RangesOf([text], parse), poolSize)
  {
    PoolBuildsIff([text], parse, poolSize);
  }
}
