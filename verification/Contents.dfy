/** What a generated record contains, said of its severity, its arguments and its attributes without the
functions that the generators are specified by. */
module Contents {
  import opened Rand
  import opened Records
  import opened Values
  import opened Weights
  import opened Intervals
  import opened LongTail
  import opened Generator

  // ----- severities

  /** Severities from the least to the most severe. */
  function Rank(sev: Severity): nat {
    match sev
    case Trace => 0
    case Debug => 1
    case Info => 2
    case Warn => 3
    case Error => 4
    case Fatal => 5
    case Other(_) => 6
  }

  /** The weight of the less severe ones together. */
  function WeightBelow(w: seq<int>, sev: Severity): int
    requires |w| == 6 && Rank(sev) <= 6
  {
    if sev == Trace then 0 else w[Rank(sev) - 1]
  }

  /** Roll `n` is in the share of the severity. */
  predicate InShare(w: seq<int>, sev: Severity, n: int)
    requires |w| == 6 && Rank(sev) < 6
  {
    WeightBelow(w, sev) <= n < w[Rank(sev)]
  }

  lemma RollPicks(w: seq<int>, n: nat, sev: Severity)
    requires WeightsOk(w) && n < 100 && Rank(sev) < 6
    ensures SeverityFor(w, n) == sev <==> InShare(w, sev, n)
  {
    SeverityFallsTo(w, n, Rank(sev));
    SeverityIndexMeans(w, n, 0);
    var k := SeverityIndex(w, n, 0).value;
    RankOf(k);
    RankOf(Rank(sev));
  }

  lemma RankOf(k: nat)
    requires k < 6
    ensures Rank(SEVERITIES[k]) == k
    ensures forall sev | Rank(sev) == k :: sev == SEVERITIES[k]
  {
    assert k == 0 || k == 1 || k == 2 || k == 3 || k == 4 || k == 5;
  }

  predicate Has(msgs: seq<Template>, sev: Severity) {
    exists i :: 0 <= i < |msgs| && msgs[i].severity == sev
  }

  lemma {:induction false} FilterAppend(a: seq<Template>, b: seq<Template>, sev: Severity)
    ensures Filter(a + b, sev) == Filter(a, sev) + Filter(b, sev)
    decreases |b|
  {
    if b == [] {
      assert a + b == a;
    } else {
      FilterAppend(a, b[..|b| - 1], sev);
      assert (a + b)[..|a + b| - 1] == a + b[..|b| - 1];
    }
  }

  /** Filtering keeps the messages of the severity, each as often as it is there. */
  lemma {:induction false} FilterKeeps(msgs: seq<Template>, sev: Severity)
    ensures forall t :: multiset(Filter(msgs, sev))[t] == if t.severity == sev then multiset(msgs)[t] else 0
  {
    if msgs != [] {
      var front, last := msgs[..|msgs| - 1], msgs[|msgs| - 1];
      FilterKeeps(front, sev);
      assert msgs == front + [last];
      assert Filter(msgs, sev) == Filter(front, sev) + if last.severity == sev then [last] else [];
    }
  }

  lemma FilterEmptyIff(msgs: seq<Template>, sev: Severity)
    ensures Filter(msgs, sev) != [] <==> Has(msgs, sev)
    ensures forall t | t in Filter(msgs, sev) :: t.severity == sev
  {
    FilterKeeps(msgs, sev);
    if Filter(msgs, sev) != [] {
      var t := Filter(msgs, sev)[0];
      assert t in multiset(Filter(msgs, sev)) && t in multiset(msgs) && t in msgs;
    }
    if Has(msgs, sev) {
      var i :| 0 <= i < |msgs| && msgs[i].severity == sev;
      assert msgs[i] in multiset(msgs) && msgs[i] in multiset(Filter(msgs, sev));
    }
    forall t | t in Filter(msgs, sev)
      ensures t.severity == sev
    {
      assert t in multiset(Filter(msgs, sev));
    }
  }

  /** The severity of the records that the picked severity `sev` leads to. */
  function SeverityOf(msgs: seq<Template>, sev: Severity): Severity {
    if Has(msgs, sev) then sev else if Has(msgs, Info) || msgs == [] then Info else msgs[0].severity
  }

  lemma CandidatesHave(msgs: seq<Template>, sev: Severity)
    ensures forall t | t in PlainCandidates(msgs, sev) :: t in msgs && t.severity == SeverityOf(msgs, sev)
    ensures forall t | t in PreparedCandidates(msgs, sev) :: t in msgs && t.severity == SeverityOf(msgs, sev)
    ensures PlainCandidates(msgs, sev) == [] <==> msgs == []
    ensures PreparedCandidates(msgs, sev) == [] <==> msgs == []
  {
    FilterEmptyIff(msgs, sev);
    FilterEmptyIff(msgs, Info);
    FilterWithin(msgs, sev);
    FilterWithin(msgs, Info);
  }

  lemma FilterWithin(msgs: seq<Template>, sev: Severity)
    ensures forall t | t in Filter(msgs, sev) :: t in msgs
  {
    FilterKeeps(msgs, sev);
    forall t | t in Filter(msgs, sev)
      ensures t in msgs
    {
      assert t in multiset(Filter(msgs, sev)) && t in multiset(msgs);
    }
  }

  lemma GeneratedSeverity(
      printer: (string, seq<Value>) -> string, candidates: seq<Template>, longTail: Option<LongTailSet>, rng: Rng,
      ts: int, sev: Severity)
    requires longTail.Some? ==> longTail.value.Valid()
    requires if candidates == [] then sev == Info else forall t | t in candidates :: t.severity == sev
    ensures Generate(printer, candidates, longTail, rng, ts).severity == sev
  {
  }

  /** Both generators give the record the severity that was rolled for, if the profile has a message of it;
      otherwise INFO, if it has one of that; otherwise its first message's. */
  lemma RecordSeverity(printer: (string, seq<Value>) -> string, lib: Library, p: Profile, rng: Rng, ts: int)
    requires p.Ok()
    ensures var sev := SeverityOf(p.messages, PickSeverity(rng, p.weights).0);
            Plain(printer, p, rng, ts).severity == sev && Prepared(lib, p, rng, ts).severity == sev
    ensures p.messages != [] ==> Has(p.messages, Prepared(lib, p, rng, ts).severity)
  {
    var (picked, r) := PickSeverity(rng, p.weights);
    var sev := SeverityOf(p.messages, picked);
    CandidatesHave(p.messages, picked);
    GeneratedSeverity(printer, PlainCandidates(p.messages, picked), None, r, ts, sev);
    GeneratedSeverity(Printer(lib), PreparedCandidates(p.messages, picked), p.longTail, r, ts, sev);
  }

  /** With validated weights: a roll in the share of a severity that has a message gives a record of it. */
  lemma ShareGivesSeverity(
      printer: (string, seq<Value>) -> string, lib: Library, p: Profile, rng: Rng, ts: int, sev: Severity)
    requires p.Ok() && WeightsOk(p.weights) && Rank(sev) < 6 && Has(p.messages, sev)
    requires InShare(p.weights, sev, rng.Intn(100).0)
    ensures Plain(printer, p, rng, ts).severity == sev && Prepared(lib, p, rng, ts).severity == sev
  {
    RollPicks(p.weights, rng.Intn(100).0, sev);
    RecordSeverity(printer, lib, p, rng, ts);
  }

  predicate Complete(msgs: seq<Template>) {
    Has(msgs, Trace) && Has(msgs, Debug) && Has(msgs, Info) && Has(msgs, Warn) && Has(msgs, Error) && Has(msgs, Fatal)
  }

  /** The rolls on which the prepared generator gives a record of the severity, when `rngs(n)` rolls `n`. */
  ghost function RollsGiving(lib: Library, p: Profile, rngs: nat -> Rng, ts: int, sev: Severity): set<nat>
    requires p.Ok()
  {
    set n: nat | n < 100 && Prepared(lib, p, rngs(n), ts).severity == sev
  }

  /** With validated weights and a message of every severity, exactly as many of the hundred rolls give a record of
      a severity as its weight exceeds that of the severity before it. */
  lemma RecordShare(lib: Library, p: Profile, rngs: nat -> Rng, ts: int, sev: Severity)
    requires p.Ok() && WeightsOk(p.weights) && Complete(p.messages) && Rank(sev) < 6
    requires forall n: nat | n < 100 :: rngs(n).Intn(100).0 == n
    ensures |RollsGiving(lib, p, rngs, ts, sev)| == p.weights[Rank(sev)] - WeightBelow(p.weights, sev)
  {
    BelowMonotone(p.weights, Rank(sev), Rank(sev) + 1);
    BelowMonotone(p.weights, Rank(sev) + 1, 6);
    forall n: nat
      ensures n in RollsGiving(lib, p, rngs, ts, sev) <==> WeightBelow(p.weights, sev) <= n < p.weights[Rank(sev)]
    {
      if n < 100 {
        AllPicked(p, n);
        RollPicks(p.weights, n, sev);
        RecordSeverity(Printer(lib), lib, p, rngs(n), ts);
      }
    }
    SizeBetween(RollsGiving(lib, p, rngs, ts, sev), WeightBelow(p.weights, sev), p.weights[Rank(sev)]);
  }

  lemma AllPicked(p: Profile, n: nat)
    requires p.Ok() && Complete(p.messages)
    ensures Has(p.messages, SeverityFor(p.weights, n))
  {
    match SeverityIndex(p.weights, n, 0)
    case Some(i) =>
      if i < 6 {
        RankOf(i);
        assert i == 0 || i == 1 || i == 2 || i == 3 || i == 4 || i == 5;
      }
    case None =>
  }

  // ----- arguments and attributes

  /** Every argument is drawn, in order, each where the one before left the generator. */
  ghost predicate ArgsDrawn(gens: seq<Gen>, ts: int, args: seq<Value>, rngs: seq<Rng>) {
    && |args| == |gens| && |rngs| == |gens| + 1
    && forall i | 0 <= i < |gens| :: gens[i](rngs[i], ts) == (args[i], rngs[i + 1])
  }

  lemma {:induction false} RunArgsDraws(gens: seq<Gen>, rng: Rng, ts: int) returns (rngs: seq<Rng>)
    ensures ArgsDrawn(gens, ts, RunArgs(gens, rng, ts).0, rngs)
    ensures rngs[0] == rng && rngs[|gens|] == RunArgs(gens, rng, ts).1
  {
    if gens == [] {
      rngs := [rng];
    } else {
      rngs := RunArgsDraws(gens[..|gens| - 1], rng, ts);
      rngs := rngs + [RunArgs(gens, rng, ts).1];
    }
  }

  /** Which argument an attribute is taken from. */
  predicate Takes(attrFromArg: map<string, int>, key: string, args: seq<Value>) {
    key in attrFromArg && 0 <= attrFromArg[key] < |args|
  }

  /** The attributes taken from arguments are theirs, but a URL that was filled into a route is stored as the route. */
  ghost predicate Taken(attrFromArg: map<string, int>, args: seq<Value>, m: map<string, Value>) {
    forall key ::
      && (key in m <==> Takes(attrFromArg, key, args))
      && (Takes(attrFromArg, key, args) ==>
            var v := args[attrFromArg[key]];
            m[key] == if v.Route? then Str(v.template) else v)
  }

  /** Draw `j` supplied a value for `key`. */
  predicate Supplies(attrs: seq<Attr>, draws: seq<Option<Value>>, j: nat, key: string)
    requires j < |attrs| && j < |draws|
  {
    attrs[j].key == key && draws[j].Some? && draws[j].value != Nil
  }

  /** One of the first `n` draws did. */
  ghost predicate Supplied(attrs: seq<Attr>, draws: seq<Option<Value>>, n: nat, key: string)
    requires n <= |attrs| && n <= |draws|
  {
    exists j :: 0 <= j < n && Supplies(attrs, draws, j, key)
  }

  /** An attribute is drawn unless its key is there already, taken from an argument or supplied by an earlier draw;
      then nothing is asked of the generator. */
  ghost predicate AttrsDrawn(
    attrs: seq<Attr>, taken: map<string, Value>, ts: int, draws: seq<Option<Value>>, rngs: seq<Rng>)
  {
    && |draws| == |attrs| && |rngs| == |attrs| + 1
    && forall j | 0 <= j < |attrs| ::
         && (draws[j].None? <==> attrs[j].key in taken || Supplied(attrs, draws, j, attrs[j].key))
         && (draws[j].Some? ==> attrs[j].gen(rngs[j], ts) == (draws[j].value, rngs[j + 1]))
         && (draws[j].None? ==> rngs[j + 1] == rngs[j])
  }

  /** The attributes there are then: those taken from arguments, and the values supplied; nil supplies none. */
  ghost predicate AttrsPut(
    attrs: seq<Attr>, taken: map<string, Value>, draws: seq<Option<Value>>, m: map<string, Value>)
    requires |draws| == |attrs|
  {
    && (forall key :: key in m <==> key in taken || Supplied(attrs, draws, |attrs|, key))
    && (forall key | key in taken :: key in m && m[key] == taken[key])
    && (forall j, key | 0 <= j < |attrs| && Supplies(attrs, draws, j, key) :: key in m && m[key] == draws[j].value)
  }

  lemma SuppliedBefore(
      attrs: seq<Attr>, draws: seq<Option<Value>>, front: seq<Attr>, before: seq<Option<Value>>, n: nat, key: string)
    requires front <= attrs && before <= draws && n <= |front| == |before|
    ensures Supplied(attrs, draws, n, key) <==> Supplied(front, before, n, key)
  {
    forall j | 0 <= j < n
      ensures Supplies(attrs, draws, j, key) <==> Supplies(front, before, j, key)
    {
    }
  }

  lemma SuppliedOneMore(attrs: seq<Attr>, draws: seq<Option<Value>>, n: nat, key: string)
    requires n < |attrs| && n < |draws|
    ensures Supplied(attrs, draws, n + 1, key) <==> Supplied(attrs, draws, n, key) || Supplies(attrs, draws, n, key)
  {
    if Supplied(attrs, draws, n + 1, key) {
      var j :| 0 <= j < n + 1 && Supplies(attrs, draws, j, key);
      assert j < n ==> Supplied(attrs, draws, n, key);
    }
  }

  lemma DrawnOneMore(
      front: seq<Attr>, a: Attr, taken: map<string, Value>, ts: int, before: seq<Option<Value>>, draw: Option<Value>,
      steps: seq<Rng>, next: Rng)
    requires AttrsDrawn(front, taken, ts, before, steps)
    requires draw.None? <==> a.key in taken || Supplied(front, before, |front|, a.key)
    requires draw.Some? ==> a.gen(steps[|front|], ts) == (draw.value, next)
    requires draw.None? ==> next == steps[|front|]
    ensures AttrsDrawn(front + [a], taken, ts, before + [draw], steps + [next])
  {
    var attrs, draws, rngs := front + [a], before + [draw], steps + [next];
    forall j | 0 <= j < |attrs|
      ensures draws[j].None? <==> attrs[j].key in taken || Supplied(attrs, draws, j, attrs[j].key)
    {
      SuppliedBefore(attrs, draws, front, before, j, attrs[j].key);
    }
  }

  lemma PutOneMore(
      front: seq<Attr>, a: Attr, taken: map<string, Value>, before: seq<Option<Value>>, draw: Option<Value>,
      m: map<string, Value>)
    requires |before| == |front| && AttrsPut(front, taken, before, m)
    requires draw.None? <==> a.key in m
    ensures AttrsPut(front + [a], taken, before + [draw],
                     if draw.None? || draw.value == Nil then m else m[a.key := draw.value])
  {
    var attrs, draws := front + [a], before + [draw];
    var m' := if draw.None? || draw.value == Nil then m else m[a.key := draw.value];
    forall key
      ensures key in m' <==> key in taken || Supplied(attrs, draws, |attrs|, key)
    {
      SuppliedOneMore(attrs, draws, |front|, key);
      SuppliedBefore(attrs, draws, front, before, |front|, key);
    }
    forall j, key | 0 <= j < |attrs| && Supplies(attrs, draws, j, key)
      ensures key in m' && m'[key] == draws[j].value
    {
      assert j < |front| ==> Supplies(front, before, j, key);
    }
  }

  lemma LastAttr(attrs: seq<Attr>, m: map<string, Value>, rng: Rng, ts: int)
    requires attrs != []
    ensures var a := attrs[|attrs| - 1];
            var (m1, r1) := RunAttrs(attrs[..|attrs| - 1], m, rng, ts);
            RunAttrs(attrs, m, rng, ts) ==
            if a.key in m1 then (m1, r1)
            else (if a.gen(r1, ts).0 == Nil then m1 else m1[a.key := a.gen(r1, ts).0], a.gen(r1, ts).1)
  {
  }

  lemma {:induction false} RunAttrsDraws(attrs: seq<Attr>, taken: map<string, Value>, rng: Rng, ts: int)
    returns (draws: seq<Option<Value>>, rngs: seq<Rng>)
    ensures AttrsDrawn(attrs, taken, ts, draws, rngs)
    ensures AttrsPut(attrs, taken, draws, RunAttrs(attrs, taken, rng, ts).0)
    ensures rngs[0] == rng && rngs[|attrs|] == RunAttrs(attrs, taken, rng, ts).1
  {
    if attrs == [] {
      draws, rngs := [], [rng];
    } else {
      var front, a := attrs[..|attrs| - 1], attrs[|attrs| - 1];
      var before, steps := RunAttrsDraws(front, taken, rng, ts);
      LastAttr(attrs, taken, rng, ts);
      var (m, r) := RunAttrs(front, taken, rng, ts);
      var draw := if a.key in m then None else Some(a.gen(r, ts).0);
      var next := RunAttrs(attrs, taken, rng, ts).1;
      DrawnOneMore(front, a, taken, ts, before, draw, steps, next);
      PutOneMore(front, a, taken, before, draw, m);
      draws, rngs := before + [draw], steps + [next];
      assert attrs == front + [a];
    }
  }

  /** Every rare attribute is drawn, and rolled for after that. */
  ghost predicate RareDrawn(rare: seq<RareAttr>, ts: int, values: seq<Value>, rolls: seq<real>, rngs: seq<Rng>) {
    && |values| == |rolls| == |rare| && |rngs| == |rare| + 1
    && forall j | 0 <= j < |rare| ::
         var (v, r) := rare[j].gen(rngs[j], ts);
         values[j] == v && (rolls[j], rngs[j + 1]) == r.Float64()
  }

  /** Roll `j` puts the attribute `key`. */
  predicate Passes(rare: seq<RareAttr>, rolls: seq<real>, j: nat, key: string)
    requires j < |rare| && j < |rolls|
  {
    rare[j].key == key && rolls[j] < rare[j].probability
  }

  /** The last of the first `n` attributes with the key whose roll passes. */
  function LastPassing(rare: seq<RareAttr>, rolls: seq<real>, n: nat, key: string): (j: Option<nat>)
    requires n <= |rare| && n <= |rolls|
    ensures j.Some? ==> j.value < n && Passes(rare, rolls, j.value, key)
    ensures j.Some? ==> forall i | j.value < i < n :: !Passes(rare, rolls, i, key)
    ensures j.None? ==> forall i | 0 <= i < n :: !Passes(rare, rolls, i, key)
  {
    if n == 0 then None
    else if Passes(rare, rolls, n - 1, key) then Some(n - 1)
    else LastPassing(rare, rolls, n - 1, key)
  }

  /** Every attribute whose roll passes is put, over whatever there was, even if its value is nil; of several with
      one key the last stays. */
  ghost predicate RarePut(
    rare: seq<RareAttr>, before: map<string, Value>, values: seq<Value>, rolls: seq<real>, m: map<string, Value>)
    requires |values| == |rolls| == |rare|
  {
    forall key ::
      match LastPassing(rare, rolls, |rare|, key)
      case Some(j) => key in m && m[key] == values[j]
      case None => (key in m <==> key in before) && (key in m ==> m[key] == before[key])
  }

  lemma {:induction false} PassingBefore(
      front: seq<RareAttr>, a: RareAttr, rolls: seq<real>, roll: real, n: nat, key: string)
    requires n <= |front| == |rolls|
    ensures LastPassing(front + [a], rolls + [roll], n, key) == LastPassing(front, rolls, n, key)
  {
    if n > 0 {
      PassingBefore(front, a, rolls, roll, n - 1, key);
    }
  }

  lemma RareOneMore(
      front: seq<RareAttr>, a: RareAttr, before: map<string, Value>, values: seq<Value>, v: Value, rolls: seq<real>,
      roll: real, m: map<string, Value>)
    requires |values| == |rolls| == |front| && RarePut(front, before, values, rolls, m)
    ensures RarePut(front + [a], before, values + [v], rolls + [roll], if roll < a.probability then m[a.key := v]
        else m)
  {
    var rare, vs, rs := front + [a], values + [v], rolls + [roll];
    var m' := if roll < a.probability then m[a.key := v] else m;
    forall key
      ensures match LastPassing(rare, rs, |rare|, key)
              case Some(j) => key in m' && m'[key] == vs[j]
              case None => (key in m' <==> key in before) && (key in m' ==> m'[key] == before[key])
    {
      PassingBefore(front, a, rolls, roll, |front|, key);
      assert LastPassing(rare, rs, |rare|, key)
          == if Passes(rare, rs, |front|, key) then Some(|front|) else LastPassing(front, rolls, |front|, key);
    }
  }

  lemma LastRare(rare: seq<RareAttr>, m: map<string, Value>, rng: Rng, ts: int)
    requires rare != []
    ensures var a := rare[|rare| - 1];
            var (m1, r1) := RunRare(rare[..|rare| - 1], m, rng, ts);
            var (v, r2) := a.gen(r1, ts);
            RunRare(rare, m, rng, ts) ==
            (if r2.Float64().0 < a.probability then m1[a.key := v] else m1, r2.Float64().1)
  {
  }

  lemma RareDrawnOneMore(
      front: seq<RareAttr>, a: RareAttr, ts: int, values: seq<Value>, v: Value, rolls: seq<real>, roll: real,
      rngs: seq<Rng>, next: Rng)
    requires RareDrawn(front, ts, values, rolls, rngs)
    requires a.gen(rngs[|front|], ts).0 == v && a.gen(rngs[|front|], ts).1.Float64() == (roll, next)
    ensures RareDrawn(front + [a], ts, values + [v], rolls + [roll], rngs + [next])
  {
    var rare, vs, rs, steps := front + [a], values + [v], rolls + [roll], rngs + [next];
    forall j | 0 <= j < |rare|
      ensures vs[j] == rare[j].gen(steps[j], ts).0
      ensures (rs[j], steps[j + 1]) == rare[j].gen(steps[j], ts).1.Float64()
    {
      if j == |front| {
        assert steps[j] == rngs[j] && rs[j] == roll && steps[j + 1] == next;
      } else {
        assert rare[j] == front[j] && vs[j] == values[j] && rs[j] == rolls[j];
        assert steps[j] == rngs[j] && steps[j + 1] == rngs[j + 1];
      }
    }
  }

  lemma {:induction false} RunRareDraws(rare: seq<RareAttr>, before: map<string, Value>, rng: Rng, ts: int)
    returns (values: seq<Value>, rolls: seq<real>, rngs: seq<Rng>)
    ensures RareDrawn(rare, ts, values, rolls, rngs)
    ensures RarePut(rare, before, values, rolls, RunRare(rare, before, rng, ts).0)
    ensures rngs[0] == rng && rngs[|rare|] == RunRare(rare, before, rng, ts).1
  {
    if rare == [] {
      values, rolls, rngs := [], [], [rng];
    } else {
      var front, a := rare[..|rare| - 1], rare[|rare| - 1];
      values, rolls, rngs := RunRareDraws(front, before, rng, ts);
      LastRare(rare, before, rng, ts);
      var (m, r) := RunRare(front, before, rng, ts);
      var (v, r1) := a.gen(r, ts);
      var (roll, next) := r1.Float64();
      RareOneMore(front, a, before, values, v, rolls, roll, m);
      RareDrawnOneMore(front, a, ts, values, v, rolls, roll, rngs, next);
      values, rolls, rngs := values + [v], rolls + [roll], rngs + [next];
      assert rare == front + [a];
    }
  }

  // ----- whole records

  /** What went into a record: its arguments, the draws for its attributes and rare attributes, the generator
      before and after each, and the attributes after each of the three stages. */
  datatype Making = Making(
    args: seq<Value>, argRngs: seq<Rng>, taken: map<string, Value>,
    draws: seq<Option<Value>>, attrRngs: seq<Rng>, supplied: map<string, Value>,
    values: seq<Value>, rolls: seq<real>, rareRngs: seq<Rng>)

  /** The record `g` is made of message `t`, each stage drawing where the one before left the generator. */
  ghost predicate MadeOf(
    printer: (string, seq<Value>) -> string, t: Template, rng: Rng, ts: int, mk: Making, g: Generated)
  {
    && g.severity == t.severity && g.body == printer(t.format, mk.args)
    && ArgsDrawn(t.args, ts, mk.args, mk.argRngs) && mk.argRngs[0] == rng
    && Taken(t.attrFromArg, mk.args, mk.taken)
    && AttrsDrawn(t.attrs, mk.taken, ts, mk.draws, mk.attrRngs) && mk.attrRngs[0] == mk.argRngs[|t.args|]
    && AttrsPut(t.attrs, mk.taken, mk.draws, mk.supplied)
    && RareDrawn(t.rareAttrs, ts, mk.values, mk.rolls, mk.rareRngs) && mk.rareRngs[0] == mk.attrRngs[|t.attrs|]
    && RarePut(t.rareAttrs, mk.supplied, mk.values, mk.rolls, g.attrs)
    && g.rng == mk.rareRngs[|t.rareAttrs|]
  }

  lemma TemplateMakes(printer: (string, seq<Value>) -> string, t: Template, rng: Rng, ts: int) returns (mk: Making)
    ensures MadeOf(printer, t, rng, ts, mk, FromTemplate(printer, t, rng, ts))
  {
    var (args, r1) := RunArgs(t.args, rng, ts);
    var argRngs := RunArgsDraws(t.args, rng, ts);
    var taken := FromArgs(t.attrFromArg, t.attrFromArg.Keys, args);
    var draws, attrRngs := RunAttrsDraws(t.attrs, taken, r1, ts);
    var (supplied, r2) := RunAttrs(t.attrs, taken, r1, ts);
    var values, rolls, rareRngs := RunRareDraws(t.rareAttrs, supplied, r2, ts);
    mk := Making(args, argRngs, taken, draws, attrRngs, supplied, values, rolls, rareRngs);
  }

  /** The message that the second draw picks among the candidates. */
  lemma GenerateMakes(
      printer: (string, seq<Value>) -> string, candidates: seq<Template>, longTail: Option<LongTailSet>, rng: Rng,
      ts: int)
    returns (mk: Making, g: Generated)
    requires candidates != [] && (longTail.Some? ==> longTail.value.Valid())
    ensures var (i, r) := rng.Intn(|candidates|);
            MadeOf(printer, candidates[i], r, ts, mk, g)
    ensures Generate(printer, candidates, longTail, rng, ts) == WithLongTail(longTail, g)
  {
    var (i, r) := rng.Intn(|candidates|);
    mk := TemplateMakes(printer, candidates[i], r, ts);
    g := FromTemplate(printer, candidates[i], r, ts);
  }

  /** The record is `g` with the long tail laid over its attributes, one draw after the others; without a long tail
      it is `g`.  `origin` is where the schedule was drawn from. */
  ghost predicate TailLaid(longTail: Option<LongTailSet>, origin: Rng, g: Generated, out: Generated) {
    if longTail.None? then out == g
    else
      var fields := longTail.value.fields;
      && out.body == g.body && out.severity == g.severity && out.rng == g.rng.(calls := g.rng.calls + [CallInt63])
      && FieldsOk(fields)
      && var first := g.rng.Int63().0 % 65536 * |fields|;
         forall key :: Laid(fields, Rolls(origin, fields, first), |fields|, g.attrs, out.attrs, key)
  }

  lemma LaysTail(longTail: Option<LongTailSet>, origin: Rng, g: Generated)
    requires longTail.Some? ==>
               longTail.value.Valid() && FieldsOk(longTail.value.fields) && BuiltFrom(origin, longTail.value)
    ensures TailLaid(longTail, origin, g, WithLongTail(longTail, g))
  {
    if longTail.Some? {
      EmissionIsSimulation(origin, longTail.value, g.rng, g.attrs);
    }
  }

  /** Both generators make their records of a message of the profile, of the severity that `RecordSeverity` says;
      the prepared one then lays the long tail over it. */
  lemma RecordsAreMade(
      printer: (string, seq<Value>) -> string, lib: Library, p: Profile, origin: Rng, rng: Rng, ts: int)
    returns (t: Template, mk: Making, t': Template, mk': Making, g': Generated)
    requires p.Ok() && p.messages != []
    requires p.longTail.Some? ==> FieldsOk(p.longTail.value.fields) && BuiltFrom(origin, p.longTail.value)
    ensures var (sev, r) := PickSeverity(rng, p.weights);
            var n, n' := |PlainCandidates(p.messages, sev)|, |PreparedCandidates(p.messages, sev)|;
            && n > 0 && n' > 0 && t in p.messages && t' in p.messages
            && MadeOf(printer, t, r.Intn(n).1, ts, mk, Plain(printer, p, rng, ts))
            && MadeOf(Printer(lib), t', r.Intn(n').1, ts, mk', g')
    ensures TailLaid(p.longTail, origin, g', Prepared(lib, p, rng, ts))
  {
    var (sev, r) := PickSeverity(rng, p.weights);
    CandidatesHave(p.messages, sev);
    var plain, prepared := PlainCandidates(p.messages, sev), PreparedCandidates(p.messages, sev);
    var g;
    mk, g := GenerateMakes(printer, plain, None, r, ts);
    mk', g' := GenerateMakes(Printer(lib), prepared, p.longTail, r, ts);
    t, t' := plain[r.Intn(|plain|).0], prepared[r.Intn(|prepared|).0];
    LaysTail(p.longTail, origin, g');
  }
}
