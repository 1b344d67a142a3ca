/** Rare fields: the precomputed schedule against one roll per field. */
module LongTail {
  import opened Rand
  import opened Records
  import opened Values

  const POOL_SIZE: nat := 256
  const DENOMINATOR: nat := 10000
  const SCHEDULE_SIZE: nat := 65536

  datatype Field = Field(key: string, pool: seq<string>, threshold: int)

  datatype Entry = Entry(fieldIdx: nat, poolIdx: nat)

  /** The pools have the size that pool indices are drawn for. */
  predicate FieldsOk(fields: seq<Field>) {
    forall f | 0 <= f < |fields| :: |fields[f].pool| == POOL_SIZE
  }

  // ----- one roll per field

  function Pairs(k: nat): seq<Call> {
    if k == 0 then [] else Pairs(k - 1) + [CallInt63, CallIntn(POOL_SIZE)]
  }

  /** The generator before roll number `k`: two draws a roll, whatever their outcomes. */
  function RollAt(rng: Rng, k: nat): Rng {
    rng.(calls := rng.calls + Pairs(k))
  }

  predicate Fires(rng: Rng, k: nat, threshold: int) {
    RollAt(rng, k).Int63().0 % DENOMINATOR < threshold
  }

  function PoolIdx(rng: Rng, k: nat): (p: nat)
    ensures p < POOL_SIZE
  {
    RollAt(rng, k).Int63().1.Intn(POOL_SIZE).0
  }

  /** The fields that fire, of the first `n`, when roll `first + f` is field `f`'s. */
  function Firing(rng: Rng, fields: seq<Field>, first: nat, n: nat): seq<Entry>
    requires n <= |fields|
  {
    if n == 0 then []
    else
      var k := first + n - 1;
      Firing(rng, fields, first, n - 1) +
      if Fires(rng, k, fields[n - 1].threshold) then [Entry(n - 1, PoolIdx(rng, k))] else []
  }

  lemma NextRoll(rng: Rng, k: nat)
    ensures RollAt(rng, k).Int63().1.Intn(POOL_SIZE).1 == RollAt(rng, k + 1)
  {
    assert rng.calls + Pairs(k) + [CallInt63] + [CallIntn(POOL_SIZE)] == rng.calls + Pairs(k + 1);
  }

  /** The entries of one slot, drawn field by field. */
  method BuildSlot(rng: Rng, fields: seq<Field>, ghost origin: Rng, ghost first: nat)
    returns (entries: seq<Entry>, next: Rng)
    requires rng == RollAt(origin, first)
    ensures entries == Firing(origin, fields, first, |fields|)
    ensures next == RollAt(origin, first + |fields|)
  {
    entries := [];
    next := rng;
    for fi := 0 to |fields|
      invariant next == RollAt(origin, first + fi)
      invariant entries == Firing(origin, fields, first, fi)
    {
      NextRoll(origin, first + fi);
      var (roll, r1) := next.Int63();
      var (poolIdx, r2) := r1.Intn(POOL_SIZE);
      if roll % DENOMINATOR < fields[fi].threshold {
        entries := entries + [Entry(fi, poolIdx)];
      }
      next := r2;
    }
  }

  method BuildSchedule(rng: Rng, fields: seq<Field>) returns (schedule: array<seq<Entry>>, next: Rng)
    ensures fresh(schedule) && schedule.Length == SCHEDULE_SIZE
    ensures forall s | 0 <= s < SCHEDULE_SIZE :: schedule[s] == Firing(rng, fields, s * |fields|, |fields|)
    ensures next == RollAt(rng, SCHEDULE_SIZE * |fields|)
  {
    schedule := new seq<Entry>[SCHEDULE_SIZE];
    next := rng;
    assert Pairs(0) == [] && rng.calls + [] == rng.calls;
    var slot := 0;
    while slot < SCHEDULE_SIZE
      invariant slot <= SCHEDULE_SIZE
      invariant next == RollAt(rng, slot * |fields|)
      invariant forall s | 0 <= s < slot :: schedule[s] == Firing(rng, fields, s * |fields|, |fields|)
    {
      var entries, r := BuildSlot(next, fields, rng, slot * |fields|);
      schedule[slot] := entries;
      next := r;
      assert slot * |fields| + |fields| == (slot + 1) * |fields|;
      slot := slot + 1;
    }
  }

  /** The closed form of a slot: field `f` is in it, with pool index `p`, exactly when its own roll says
      so, and the entries are in strictly increasing field order and in bounds. */
  lemma {:induction false} SlotClosedForm(rng: Rng, fields: seq<Field>, first: nat, n: nat)
    requires n <= |fields|
    ensures var es := Firing(rng, fields, first, n);
            && (forall f: nat, p: nat :: Entry(f, p) in es <==>
                  f < n && Fires(rng, first + f, fields[f].threshold) && p == PoolIdx(rng, first + f))
            && (forall i | 0 <= i < |es| :: es[i].fieldIdx < n && es[i].poolIdx < POOL_SIZE)
            && (forall i, j | 0 <= i < j < |es| :: es[i].fieldIdx < es[j].fieldIdx)
  {
    if n > 0 {
      SlotClosedForm(rng, fields, first, n - 1);
      assert first + n - 1 == first + (n - 1);
    }
  }

  // ----- emission

  datatype LongTailSet = LongTailSet(fields: seq<Field>, schedule: seq<seq<Entry>>) {

    /** Every entry names a field and one of its values. */
    predicate Valid() {
      && |schedule| == SCHEDULE_SIZE
      && forall s | 0 <= s < SCHEDULE_SIZE :: InBounds(fields, schedule[s])
    }
  }

  predicate InBounds(fields: seq<Field>, entries: seq<Entry>) {
    forall i | 0 <= i < |entries| ::
      entries[i].fieldIdx < |fields| && entries[i].poolIdx < |fields[entries[i].fieldIdx].pool|
  }

  /** The schedule is the one that is drawn from `origin` on. */
  ghost predicate BuiltFrom(origin: Rng, lt: LongTailSet) {
    && |lt.schedule| == SCHEDULE_SIZE
    && forall s | 0 <= s < SCHEDULE_SIZE ::
         lt.schedule[s] == Firing(origin, lt.fields, s * |lt.fields|, |lt.fields|)
  }

  /** A schedule built for fields with full pools never leads out of bounds. */
  lemma BuiltScheduleValid(rng: Rng, lt: LongTailSet)
    requires FieldsOk(lt.fields) && BuiltFrom(rng, lt)
    ensures lt.Valid()
  {
    forall s | 0 <= s < SCHEDULE_SIZE
      ensures InBounds(lt.fields, lt.schedule[s])
    {
      SlotClosedForm(rng, lt.fields, s * |lt.fields|, |lt.fields|);
    }
  }

  /** A set of fields with a schedule of its own. */
  method BuildLongTail(rng: Rng, fields: seq<Field>) returns (lt: LongTailSet, next: Rng)
    requires FieldsOk(fields)
    ensures lt.fields == fields && BuiltFrom(rng, lt) && lt.Valid()
    ensures next == RollAt(rng, SCHEDULE_SIZE * |fields|)
  {
    var schedule;
    schedule, next := BuildSchedule(rng, fields);
    lt := LongTailSet(fields, schedule[..]);
    BuiltScheduleValid(rng, lt);
  }

  function PutEntries(fields: seq<Field>, attrs: map<string, Value>, entries: seq<Entry>): map<string, Value>
    requires InBounds(fields, entries)
  {
    if entries == [] then attrs
    else
      var e := entries[|entries| - 1];
      PutEntries(fields, attrs, entries[..|entries| - 1])
        [fields[e.fieldIdx].key := Str(fields[e.fieldIdx].pool[e.poolIdx])]
  }

  function Slot(rng: Rng): (s: nat)
    ensures s < SCHEDULE_SIZE
  {
    rng.Int63().0 % SCHEDULE_SIZE
  }

  function Emitted(lt: LongTailSet, rng: Rng, attrs: map<string, Value>): (map<string, Value>, Rng)
    requires lt.Valid()
  {
    (PutEntries(lt.fields, attrs, lt.schedule[Slot(rng)]), rng.Int63().1)
  }

  /** One draw a record. */
  method EmitLongTail(lt: LongTailSet, rng: Rng, attrsOut: AttrMap) returns (next: Rng)
    requires lt.Valid()
    modifies attrsOut
    ensures (attrsOut.fields, next) == Emitted(lt, rng, old(attrsOut.fields))
  {
    var (r, after) := rng.Int63();
    var entries := lt.schedule[r % SCHEDULE_SIZE];
    assert InBounds(lt.fields, entries);
    for i := 0 to |entries|
      invariant attrsOut.fields == PutEntries(lt.fields, old(attrsOut.fields), entries[..i])
    {
      assert entries[..i + 1][..i] == entries[..i];
      var e := entries[i];
      attrsOut.Put(lt.fields[e.fieldIdx].key, Str(lt.fields[e.fieldIdx].pool[e.poolIdx]));
    }
    assert entries[..|entries|] == entries;
    next := after;
  }

  /** Rolling for each of the first `n` fields when the record is emitted. */
  function Simulated(rng: Rng, fields: seq<Field>, first: nat, n: nat, attrs: map<string, Value>): map<string, Value>
    requires n <= |fields| && FieldsOk(fields)
  {
    if n == 0 then attrs
    else
      var k := first + n - 1;
      var before := Simulated(rng, fields, first, n - 1, attrs);
      if Fires(rng, k, fields[n - 1].threshold)
      then before[fields[n - 1].key := Str(fields[n - 1].pool[PoolIdx(rng, k)])]
      else before
  }

  lemma PutOneMore(fields: seq<Field>, attrs: map<string, Value>, entries: seq<Entry>, e: Entry)
    requires InBounds(fields, entries) && e.fieldIdx < |fields| && e.poolIdx < |fields[e.fieldIdx].pool|
    ensures InBounds(fields, entries + [e])
    ensures PutEntries(fields, attrs, entries + [e]) ==
            PutEntries(fields, attrs, entries)[fields[e.fieldIdx].key := Str(fields[e.fieldIdx].pool[e.poolIdx])]
  {
    assert (entries + [e])[..|entries|] == entries;
  }

  /** What field `n` adds to a slot, if it fires. */
  function Added(rng: Rng, fields: seq<Field>, first: nat, n: nat): Option<Entry>
    requires n < |fields|
  {
    if Fires(rng, first + n, fields[n].threshold) then Some(Entry(n, PoolIdx(rng, first + n))) else None
  }

  lemma FiringOneMore(rng: Rng, fields: seq<Field>, first: nat, n: nat)
    requires n < |fields|
    ensures Firing(rng, fields, first, n + 1) == Firing(rng, fields, first, n) + Listed(Added(rng, fields, first, n))
  {
    assert first + (n + 1) - 1 == first + n;
  }

  function Listed(e: Option<Entry>): seq<Entry> {
    if e.Some? then [e.value] else []
  }

  function PutOne(fields: seq<Field>, m: map<string, Value>, e: Option<Entry>): map<string, Value>
    requires InBounds(fields, Listed(e))
  {
    if e.None? then m
    else
      assert Listed(e)[0] == e.value;
      m[fields[e.value.fieldIdx].key := Str(fields[e.value.fieldIdx].pool[e.value.poolIdx])]
  }

  lemma SimulatedOneMore(rng: Rng, fields: seq<Field>, first: nat, n: nat, attrs: map<string, Value>)
    requires n < |fields| && FieldsOk(fields)
    ensures Simulated(rng, fields, first, n + 1, attrs) ==
            if Fires(rng, first + n, fields[n].threshold)
            then Simulated(rng, fields, first, n, attrs)
                   [fields[n].key := Str(fields[n].pool[PoolIdx(rng, first + n)])]
            else Simulated(rng, fields, first, n, attrs)
  {
    assert first + (n + 1) - 1 == first + n;
  }

  lemma PutListed(fields: seq<Field>, attrs: map<string, Value>, entries: seq<Entry>, e: Option<Entry>)
    requires InBounds(fields, entries) && InBounds(fields, Listed(e))
    ensures InBounds(fields, entries + Listed(e))
    ensures PutEntries(fields, attrs, entries + Listed(e)) == PutOne(fields, PutEntries(fields, attrs, entries), e)
  {
    if e.Some? {
      assert Listed(e)[0] == e.value;
      PutOneMore(fields, attrs, entries, e.value);
    } else {
      assert entries + Listed(e) == entries;
    }
  }

  /** Field `f` adds `e`, an entry or none, to the entries of the slot and to the attributes. */
  ghost predicate Adds(
    fields: seq<Field>, e: Option<Entry>, before: seq<Entry>, after: seq<Entry>, m: map<string, Value>,
    m': map<string, Value>)
  {
    InBounds(fields, Listed(e)) && after == before + Listed(e) && m' == PutOne(fields, m, e)
  }

  lemma OneMore(rng: Rng, fields: seq<Field>, first: nat, n: nat, attrs: map<string, Value>)
    requires n < |fields| && FieldsOk(fields)
    ensures Adds(fields, Added(rng, fields, first, n),
                 Firing(rng, fields, first, n), Firing(rng, fields, first, n + 1),
                 Simulated(rng, fields, first, n, attrs), Simulated(rng, fields, first, n + 1, attrs))
  {
    FiringOneMore(rng, fields, first, n);
    SimulatedOneMore(rng, fields, first, n, attrs);
  }

  /** `es` and `ms` list the entries and the attributes after each field, and `add` what each field adds. */
  lemma {:induction false} PutStepByStep(
      fields: seq<Field>, add: nat -> Option<Entry>, n: nat, es: nat -> seq<Entry>, ms: nat -> map<string, Value>)
    requires es(0) == []
    requires forall f: nat {:trigger add(f)} | f < n :: Adds(fields, add(f), es(f), es(f + 1), ms(f), ms(f + 1))
    ensures InBounds(fields, es(n)) && PutEntries(fields, ms(0), es(n)) == ms(n)
  {
    if n > 0 {
      PutStepByStep(fields, add, n - 1, es, ms);
      assert Adds(fields, add(n - 1), es(n - 1), es(n - 1 + 1), ms(n - 1), ms(n - 1 + 1));
      PutListed(fields, ms(0), es(n - 1), add(n - 1));
    }
  }

  lemma ListSteps(rng: Rng, fields: seq<Field>, first: nat, attrs: map<string, Value>)
    returns (add: nat -> Option<Entry>, es: nat -> seq<Entry>, ms: nat -> map<string, Value>)
    requires FieldsOk(fields)
    ensures forall n: nat | n <= |fields| ::
              es(n) == Firing(rng, fields, first, n) && ms(n) == Simulated(rng, fields, first, n, attrs)
    ensures forall f: nat {:trigger add(f)} | f < |fields| ::
              Adds(fields, add(f), es(f), es(f + 1), ms(f), ms(f + 1))
  {
    add := (f: nat) => if f < |fields| then Added(rng, fields, first, f) else None;
    es := (f: nat) => if f <= |fields| then Firing(rng, fields, first, f) else [];
    ms := (f: nat) => if f <= |fields| then Simulated(rng, fields, first, f, attrs) else attrs;
    forall f: nat | f < |fields|
      ensures Adds(fields, add(f), es(f), es(f + 1), ms(f), ms(f + 1))
    {
      OneMore(rng, fields, first, f, attrs);
    }
  }

  /** Looking a slot up gives what rolling for every field would have given. */
  lemma LookupIsSimulation(rng: Rng, fields: seq<Field>, first: nat, n: nat, attrs: map<string, Value>)
    requires n <= |fields| && FieldsOk(fields)
    ensures InBounds(fields, Firing(rng, fields, first, n))
    ensures PutEntries(fields, attrs, Firing(rng, fields, first, n)) == Simulated(rng, fields, first, n, attrs)
  {
    var add, es, ms := ListSteps(rng, fields, first, attrs);
    assert es(0) == [] && ms(0) == attrs;
    PutStepByStep(fields, add, n, es, ms);
  }

  // ----- what a record gets, by the draws themselves

  /** The answer to draw number `j` from `origin` on, of draws that alternate between a roll and a pool index. */
  function Answer(origin: Rng, j: nat): nat {
    origin.source.ints(origin.seed, origin.calls + Alternating(j))
  }

  function Alternating(j: nat): seq<Call> {
    seq(j, i => if i % 2 == 0 then CallInt63 else CallIntn(256))
  }

  /** What roll number `k` puts for the field: if it is below the threshold, out of ten thousand, the value that
      the draw after it points to. */
  function Rolled(origin: Rng, f: Field, k: nat): Option<Value>
    requires |f.pool| == 256
  {
    if Answer(origin, 2 * k) % 0x8000_0000_0000_0000 % 10000 < f.threshold
    then Some(Str(f.pool[Answer(origin, 2 * k + 1) % 256]))
    else None
  }

  lemma {:induction false} PairsAlternate(k: nat)
    ensures Pairs(k) == Alternating(2 * k)
    ensures Pairs(k) + [CallInt63] == Alternating(2 * k + 1)
  {
    if k > 0 {
      PairsAlternate(k - 1);
    }
    assert Alternating(2 * k) + [CallInt63] == Alternating(2 * k + 1);
  }

  lemma FiringByDraws(origin: Rng, f: Field, k: nat)
    requires |f.pool| == POOL_SIZE
    ensures Rolled(origin, f, k) == if Fires(origin, k, f.threshold) then Some(Str(f.pool[PoolIdx(origin, k)]))
        else None
  {
    PairsAlternate(k);
    assert origin.calls + Pairs(k) + [CallInt63] == origin.calls + Alternating(2 * k + 1);
  }

  /** What the roll of each field puts, if anything. */
  type Puts = nat -> Option<Value>

  function Rolls(origin: Rng, fields: seq<Field>, first: nat): Puts
    requires FieldsOk(fields)
  {
    (f: nat) => if f < |fields| then Rolled(origin, fields[f], first + f) else None
  }

  /** The last of the first `n` fields with the key for which something is put. */
  function LastPut(fields: seq<Field>, puts: Puts, n: nat, key: string): (f: Option<nat>)
    requires n <= |fields|
    ensures f.Some? ==> f.value < n && fields[f.value].key == key && puts(f.value).Some?
    ensures f.Some? ==> forall i | f.value < i < n :: fields[i].key == key ==> puts(i).None?
    ensures f.None? ==> forall i | 0 <= i < n :: fields[i].key == key ==> puts(i).None?
  {
    if n == 0 then None
    else if fields[n - 1].key == key && puts(n - 1).Some? then Some(n - 1)
    else LastPut(fields, puts, n - 1, key)
  }

  /** The attribute `key` of `m` is what is put for the first `n` fields, over what `attrs` has. */
  ghost predicate Laid(
    fields: seq<Field>, puts: Puts, n: nat, attrs: map<string, Value>, m: map<string, Value>, key: string)
    requires n <= |fields|
  {
    match LastPut(fields, puts, n, key)
    case Some(f) => key in m && m[key] == puts(f).value
    case None => (key in m <==> key in attrs) && (key in m ==> m[key] == attrs[key])
  }

  lemma LaidOneMore(
      fields: seq<Field>, puts: Puts, n: nat, attrs: map<string, Value>, m: map<string, Value>, key: string)
    requires n < |fields| && Laid(fields, puts, n, attrs, m, key)
    ensures Laid(fields, puts, n + 1, attrs, if puts(n).Some? then m[fields[n].key := puts(n).value] else m, key)
  {
  }

  /** `ms` lists the attributes after each field. */
  lemma {:induction false} LaidStepByStep(
      fields: seq<Field>, puts: Puts, n: nat, ms: nat -> map<string, Value>, key: string)
    requires n <= |fields|
    requires forall f: nat {:trigger puts(f)} | f < n ::
               ms(f + 1) == if puts(f).Some? then ms(f)[fields[f].key := puts(f).value] else ms(f)
    ensures Laid(fields, puts, n, ms(0), ms(n), key)
  {
    if n > 0 {
      LaidStepByStep(fields, puts, n - 1, ms, key);
      LaidOneMore(fields, puts, n - 1, ms(0), ms(n - 1), key);
    }
  }

  lemma SimulationByDraws(
      rng: Rng, fields: seq<Field>, first: nat, attrs: map<string, Value>, puts: Puts, key: string)
    requires FieldsOk(fields)
    requires forall f: nat | f < |fields| ::
               puts(f) == if Fires(rng, first + f, fields[f].threshold)
                          then Some(Str(fields[f].pool[PoolIdx(rng, first + f)])) else None
    ensures Laid(fields, puts, |fields|, attrs, Simulated(rng, fields, first, |fields|, attrs), key)
  {
    var ms := (n: nat) => if n <= |fields| then Simulated(rng, fields, first, n, attrs) else attrs;
    forall f: nat | f < |fields|
      ensures ms(f + 1) == if puts(f).Some? then ms(f)[fields[f].key := puts(f).value] else ms(f)
    {
      PutByDraws(rng, fields, first, f, attrs, puts);
    }
    LaidStepByStep(fields, puts, |fields|, ms, key);
  }

  lemma PutByDraws(rng: Rng, fields: seq<Field>, first: nat, n: nat, attrs: map<string, Value>, puts: Puts)
    requires n < |fields| && FieldsOk(fields)
    requires puts(n) == if Fires(rng, first + n, fields[n].threshold)
                        then Some(Str(fields[n].pool[PoolIdx(rng, first + n)])) else None
    ensures Simulated(rng, fields, first, n + 1, attrs) ==
            var before := Simulated(rng, fields, first, n, attrs);
            if puts(n).Some? then before[fields[n].key := puts(n).value] else before
  {
    SimulatedOneMore(rng, fields, first, n, attrs);
  }

  lemma SimulationLays(origin: Rng, fields: seq<Field>, first: nat, attrs: map<string, Value>, key: string)
    requires FieldsOk(fields)
    ensures Laid(fields, Rolls(origin, fields, first), |fields|, attrs,
                 Simulated(origin, fields, first, |fields|, attrs), key)
  {
    var puts := Rolls(origin, fields, first);
    forall f: nat | f < |fields|
      ensures puts(f) == if Fires(origin, first + f, fields[f].threshold)
                         then Some(Str(fields[f].pool[PoolIdx(origin, first + f)])) else None
    {
      FiringByDraws(origin, fields[f], first + f);
    }
    SimulationByDraws(origin, fields, first, attrs, puts, key);
  }

  /** The long tail of a record: of a set built from `origin`, the low sixteen bits `s` of the one draw select the
      slot whose rolls are number s * |fields| and following, and each attribute is what these rolls put there. */
  lemma EmissionIsSimulation(origin: Rng, lt: LongTailSet, rng: Rng, attrs: map<string, Value>)
    requires FieldsOk(lt.fields) && BuiltFrom(origin, lt) && lt.Valid()
    ensures var n := |lt.fields|;
            var first := rng.Int63().0 % 65536 * n;
            var m := Simulated(origin, lt.fields, first, n, attrs);
            && Emitted(lt, rng, attrs) == (m, rng.(calls := rng.calls + [CallInt63]))
            && forall key :: Laid(lt.fields, Rolls(origin, lt.fields, first), n, attrs, m, key)
  {
    var n := |lt.fields|;
    var first := rng.Int63().0 % 65536 * n;
    LookupIsSimulation(origin, lt.fields, first, n, attrs);
    forall key
      ensures Laid(lt.fields, Rolls(origin, lt.fields, first), n, attrs,
                   Simulated(origin, lt.fields, first, n, attrs), key)
    {
      SimulationLays(origin, lt.fields, first, attrs, key);
    }
  }

  /** Every slot is selected by some draw. */
  lemma EverySlotIsReached(origin: Rng, lt: LongTailSet, attrs: map<string, Value>, s: nat) returns (rng: Rng)
    requires FieldsOk(lt.fields) && BuiltFrom(origin, lt) && lt.Valid() && s < 65536
    ensures Emitted(lt, rng, attrs).0 == Simulated(origin, lt.fields, s * |lt.fields|, |lt.fields|, attrs)
  {
    rng := Rng(Source((seed, calls) => s, (seed, calls) => 0.0), 0, []);
    EmissionIsSimulation(origin, lt, rng, attrs);
    assert rng.Int63().0 % 65536 == s;
  }
}
