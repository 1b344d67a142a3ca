/** Statistics shards: counters and a capped index of field values, and their merge. */
module Stats {
  import opened Records
  import opened Bags

  const MAX_FIELD_CARDINALITY: nat := 500

  // ----- what the counters count

  function SeverityBag(r: LogRecord): multiset<string> {
    multiset{SeverityText(r.severity)}
  }

  function ResourceBag(r: LogRecord, key: string): multiset<string> {
    if key in r.resource then multiset{r.resource[key]} else multiset{}
  }

  function AppBag(r: LogRecord): multiset<string> { ResourceBag(r, "service.name") }

  function NodeBag(r: LogRecord): multiset<string> { ResourceBag(r, "k8s.node.name") }

  function NamespaceBag(r: LogRecord): multiset<string> { ResourceBag(r, "k8s.namespace.name") }

  /** The counters that hold the multiset `m`: that of `k` is the multiplicity of `k`. */
  function Counts(m: multiset<string>): map<string, nat> {
    map k | k in m :: m[k]
  }

  function Bump(counters: map<string, nat>, key: string, n: nat): map<string, nat> {
    counters[key := (if key in counters then counters[key] else 0) + n]
  }

  // ----- what the index holds

  /** The values of field `key` in the order in which they arrive: the resource's, then the record's. */
  function ValuesIn(r: LogRecord, key: string): seq<string> {
    (if key in r.resource then [r.resource[key]] else []) + (if key in r.attrs then [r.attrs[key]] else [])
  }

  function Values(stream: seq<LogRecord>, key: string): seq<string> {
    if stream == [] then [] else Values(stream[..|stream| - 1], key) + ValuesIn(stream[|stream| - 1], key)
  }

  /** The distinct values, in the order of their first arrival. */
  function Distinct(vals: seq<string>): seq<string> {
    if vals == [] then []
    else
      var front, v := Distinct(vals[..|vals| - 1]), vals[|vals| - 1];
      if v in front then front else front + [v]
  }

  function Elements(vals: seq<string>): set<string> {
    set v | v in vals
  }

  /** The first 500 distinct values. */
  function FirstDistinct(vals: seq<string>): set<string> {
    var d := Distinct(vals);
    Elements(if |d| <= MAX_FIELD_CARDINALITY then d else d[..MAX_FIELD_CARDINALITY])
  }

  lemma {:induction false} DistinctElements(vals: seq<string>)
    ensures Elements(Distinct(vals)) == Elements(vals)
    ensures |Elements(Distinct(vals))| == |Distinct(vals)|
    ensures forall n: nat | n <= |Distinct(vals)| :: |Elements(Distinct(vals)[..n])| == n
  {
    if vals == [] {
    } else {
      var front, v := vals[..|vals| - 1], vals[|vals| - 1];
      DistinctElements(front);
      var d, d' := Distinct(front), Distinct(vals);
      assert vals == front + [v];
      if v !in d {
        assert Elements(d') == Elements(d) + {v};
        assert v !in Elements(d);
        forall n: nat | n <= |d'|
          ensures |Elements(d'[..n])| == n
        {
          if n <= |d| {
            assert d'[..n] == d[..n];
          } else {
            assert d'[..n] == d';
          }
        }
      }
    }
  }

  lemma DistinctSnoc(vals: seq<string>, v: string)
    ensures Distinct(vals + [v]) == if v in Distinct(vals) then Distinct(vals) else Distinct(vals) + [v]
  {
    assert (vals + [v])[..|vals|] == vals;
  }

  /** One more value enters the set until the set is full, and never after. */
  lemma FirstDistinctSnoc(vals: seq<string>, v: string)
    ensures FirstDistinct(vals + [v]) ==
            if |FirstDistinct(vals)| >= MAX_FIELD_CARDINALITY then FirstDistinct(vals) else FirstDistinct(vals) + {v}
    ensures |FirstDistinct(vals)| <= MAX_FIELD_CARDINALITY
  {
    var d := Distinct(vals);
    DistinctElements(vals);
    DistinctSnoc(vals, v);
    if |d| >= MAX_FIELD_CARDINALITY {
      assert (d + [v])[..MAX_FIELD_CARDINALITY] == d[..MAX_FIELD_CARDINALITY];
      assert |d| == MAX_FIELD_CARDINALITY ==> d == d[..MAX_FIELD_CARDINALITY];
    } else if v !in d {
      assert Elements(d + [v]) == Elements(d) + {v};
    } else {
      assert v in Elements(d);
    }
  }

  /** The index loses nothing exactly while a field has at most 500 distinct values. */
  lemma IndexExactIff(vals: seq<string>)
    ensures FirstDistinct(vals) == Elements(vals) <==> |Elements(vals)| <= MAX_FIELD_CARDINALITY
  {
    DistinctElements(vals);
    var d := Distinct(vals);
    if |d| > MAX_FIELD_CARDINALITY {
      assert |Elements(d[..MAX_FIELD_CARDINALITY])| == MAX_FIELD_CARDINALITY;
    }
  }

  /** The index of every field is the first 500 distinct values seen of it.  The set of capped fields
      only says early what the index says: a capped field is full. */
  ghost predicate IndexHolds(index: map<string, set<string>>, capped: set<string>, seen: map<string, seq<string>>) {
    && index.Keys == seen.Keys
    && (forall k | k in seen :: index[k] == FirstDistinct(seen[k]))
    && (forall k | k in capped :: k in index && |index[k]| == MAX_FIELD_CARDINALITY)
  }

  /** What has been seen of each field is what the stream has brought. */
  ghost predicate SeenAll(seen: map<string, seq<string>>, stream: seq<LogRecord>) {
    forall k :: SeenOf(seen, k) == Values(stream, k)
  }

  ghost predicate SeenMore(
    seen: map<string, seq<string>>, seen': map<string, seq<string>>, fields: map<string, string>)
  {
    forall k :: SeenOf(seen', k) == SeenOf(seen, k) + if k in fields then [fields[k]] else []
  }

  /** Of the fields, those in `done` have been seen. */
  ghost predicate SeenSome(
    seen: map<string, seq<string>>, seen': map<string, seq<string>>, fields: map<string, string>, done: set<string>)
  {
    done <= fields.Keys && forall k :: SeenOf(seen', k) == SeenOf(seen, k) + if k in done then [fields[k]] else []
  }

  lemma TakenOut<T>(all: set<T>, todo: set<T>, x: T)
    requires x in todo && todo <= all
    ensures all - (todo - {x}) == (all - todo) + {x}
  {
  }

  lemma SeenOneMore(
      seen: map<string, seq<string>>, seen': map<string, seq<string>>, fields: map<string, string>,
      done: set<string>, key: string)
    requires SeenSome(seen, seen', fields, done) && key in fields.Keys && key !in done
    ensures SeenSome(seen, seen'[key := SeenOf(seen', key) + [fields[key]]], fields, done + {key})
  {
    assert SeenOf(seen', key) == SeenOf(seen, key) + [];
  }

  lemma SeenRecord(
    seen: map<string, seq<string>>, seen1: map<string, seq<string>>, seen2: map<string, seq<string>>,
    stream: seq<LogRecord>, r: LogRecord)
    requires SeenAll(seen, stream) && SeenMore(seen, seen1, r.resource) && SeenMore(seen1, seen2, r.attrs)
    ensures SeenAll(seen2, stream + [r])
  {
    forall k
      ensures SeenOf(seen2, k) == Values(stream + [r], k)
    {
      ValuesSnoc(stream, r, k);
      var first := if k in r.resource then [r.resource[k]] else [];
      var second := if k in r.attrs then [r.attrs[k]] else [];
      Associative(Values(stream, k), first, second);
    }
  }

  function SeenOf(seen: map<string, seq<string>>, key: string): seq<string> {
    if key in seen then seen[key] else []
  }

  function IndexOf(index: map<string, set<string>>, key: string): set<string> {
    if key in index then index[key] else {}
  }

  /** One more value of one field leaves a full set as it is ... */
  lemma IndexFull(
      index: map<string, set<string>>, capped: set<string>, seen: map<string, seq<string>>, key: string, value: string)
    requires IndexHolds(index, capped, seen) && |IndexOf(index, key)| >= MAX_FIELD_CARDINALITY
    ensures var seen' := seen[key := SeenOf(seen, key) + [value]];
            IndexHolds(index, capped, seen') && IndexHolds(index, capped + {key}, seen')
  {
    FirstDistinctSnoc(seen[key], value);
    var seen' := seen[key := seen[key] + [value]];
    assert seen'.Keys == seen.Keys;
    forall k | k in seen'
      ensures index[k] == FirstDistinct(seen'[k])
    {
    }
  }

  /** ... and enters any other; a field that has been capped is full. */
  lemma IndexGrows(
      index: map<string, set<string>>, capped: set<string>, seen: map<string, seq<string>>, key: string, value: string)
    requires IndexHolds(index, capped, seen) && |IndexOf(index, key)| < MAX_FIELD_CARDINALITY
    ensures key !in capped
    ensures IndexHolds(index[key := IndexOf(index, key) + {value}], capped, seen[key := SeenOf(seen, key) + [value]])
  {
    FirstDistinctSnoc(SeenOf(seen, key), value);
    IndexUpdate(index, capped, seen, key, IndexOf(index, key) + {value}, SeenOf(seen, key) + [value]);
  }

  lemma IndexUpdate(
      index: map<string, set<string>>, capped: set<string>, seen: map<string, seq<string>>, key: string,
      values: set<string>, vals: seq<string>)
    requires IndexHolds(index, capped, seen) && key !in capped && values == FirstDistinct(vals)
    ensures IndexHolds(index[key := values], capped, seen[key := vals])
  {
    var seen', index' := seen[key := vals], index[key := values];
    assert seen'.Keys == seen.Keys + {key} && index'.Keys == index.Keys + {key};
    forall k | k in seen'
      ensures index'[k] == FirstDistinct(seen'[k])
    {
      if k != key {
        assert index'[k] == index[k] && seen'[k] == seen[k];
      }
    }
  }

  datatype Tally = Tally(
    total: nat, bySeverity: map<string, nat>, byApp: map<string, nat>, byNode: map<string, nat>,
    byNamespace: map<string, nat>)

  /** The counters of a stream of records, whatever their order. */
  function TallyOf(stream: seq<LogRecord>): Tally {
    Tally(|stream|, Counts(Sum(stream, SeverityBag)), Counts(Sum(stream, AppBag)),
          Counts(Sum(stream, NodeBag)), Counts(Sum(stream, NamespaceBag)))
  }

  // ----- what the counters and the index mean

  function Get(counters: map<string, nat>, key: string): nat {
    if key in counters then counters[key] else 0
  }

  /** The records of the stream, by position, of which `p` holds. */
  function Where(stream: seq<LogRecord>, p: LogRecord -> bool): set<nat> {
    set i: nat | i < |stream| && p(stream[i])
  }

  /** The resource has the value for the key. */
  function WithResource(key: string, value: string): LogRecord -> bool {
    (r: LogRecord) => key in r.resource && r.resource[key] == value
  }

  /** The severity is the one that the text names. */
  function WithSeverity(text: string): LogRecord -> bool {
    (r: LogRecord) => SeverityText(r.severity) == text
  }

  lemma WhereSnoc(front: seq<LogRecord>, last: LogRecord, p: LogRecord -> bool)
    ensures |Where(front + [last], p)| == |Where(front, p)| + if p(last) then 1 else 0
  {
    var stream := front + [last];
    if p(last) {
      assert Where(stream, p) == Where(front, p) + {|front|};
    } else {
      assert Where(stream, p) == Where(front, p);
    }
  }

  lemma {:induction false} CountedWhere(
      stream: seq<LogRecord>, f: LogRecord -> multiset<string>, value: string, p: LogRecord -> bool)
    requires forall r :: f(r)[value] == if p(r) then 1 else 0
    ensures Sum(stream, f)[value] == |Where(stream, p)|
  {
    if stream != [] {
      var front, last := stream[..|stream| - 1], stream[|stream| - 1];
      CountedWhere(front, f, value, p);
      WhereSnoc(front, last, p);
      assert stream == front + [last];
    }
  }

  /** Every counter is a number of records: of a severity, a service, a node or a namespace. */
  lemma TallyCounts(stream: seq<LogRecord>, v: string)
    ensures var t := TallyOf(stream);
            && t.total == |stream|
            && Get(t.bySeverity, v) == |Where(stream, WithSeverity(v))|
            && Get(t.byApp, v) == |Where(stream, WithResource("service.name", v))|
            && Get(t.byNode, v) == |Where(stream, WithResource("k8s.node.name", v))|
            && Get(t.byNamespace, v) == |Where(stream, WithResource("k8s.namespace.name", v))|
  {
    CountedWhere(stream, SeverityBag, v, WithSeverity(v));
    CountedWhere(stream, AppBag, v, WithResource("service.name", v));
    CountedWhere(stream, NodeBag, v, WithResource("k8s.node.name", v));
    CountedWhere(stream, NamespaceBag, v, WithResource("k8s.namespace.name", v));
  }

  /** The resource or the record has the value for the key. */
  predicate Has(r: LogRecord, key: string, v: string) {
    (key in r.resource && r.resource[key] == v) || (key in r.attrs && r.attrs[key] == v)
  }

  ghost predicate SomeHas(stream: seq<LogRecord>, key: string, v: string) {
    exists i :: 0 <= i < |stream| && Has(stream[i], key, v)
  }

  lemma SomeHasSnoc(front: seq<LogRecord>, last: LogRecord, key: string, v: string)
    ensures SomeHas(front + [last], key, v) <==> SomeHas(front, key, v) || Has(last, key, v)
  {
    var stream := front + [last];
    assert stream[|front|] == last;
    if i :| 0 <= i < |front| && Has(front[i], key, v) {
      assert Has(stream[i], key, v);
    }
  }

  lemma ValuesInMean(r: LogRecord, key: string, v: string)
    ensures v in ValuesIn(r, key) <==> Has(r, key, v)
  {
  }

  /** The values of a field are those that a resource or a record has for it. */
  lemma {:induction false} ValuesMean(stream: seq<LogRecord>, key: string, v: string)
    ensures v in Elements(Values(stream, key)) <==> SomeHas(stream, key, v)
  {
    if stream != [] {
      var front, last := stream[..|stream| - 1], stream[|stream| - 1];
      ValuesMean(front, key, v);
      ValuesInMean(last, key, v);
      SomeHasSnoc(front, last, key, v);
      assert stream == front + [last];
      assert v in Values(stream, key) <==> v in Values(front, key) || v in ValuesIn(last, key);
    }
  }

  /** The counters are those of the stream.  It is stated of every equal stream so that it says nothing to the
      verifier where no tally is spoken of. */
  ghost predicate Tallied(counters: Tally, stream: seq<LogRecord>) {
    forall xs {:trigger TallyOf(xs)} | xs == stream :: counters == TallyOf(xs)
  }

  function AddRecord(t: Tally, r: LogRecord): Tally {
    Tally(t.total + 1, Bump(t.bySeverity, SeverityText(r.severity), 1), CountKey(t.byApp, r.resource, "service.name"),
          CountKey(t.byNode, r.resource, "k8s.node.name"), CountKey(t.byNamespace, r.resource, "k8s.namespace.name"))
  }

  lemma TallySnoc(stream: seq<LogRecord>, r: LogRecord)
    ensures AddRecord(TallyOf(stream), r) == TallyOf(stream + [r])
  {
    CountSeverityHolds(stream, r);
    CountKeyHolds(stream, r, "service.name", AppBag);
    CountKeyHolds(stream, r, "k8s.node.name", NodeBag);
    CountKeyHolds(stream, r, "k8s.namespace.name", NamespaceBag);
  }

  lemma TalliedSnoc(counters: Tally, stream: seq<LogRecord>, r: LogRecord)
    requires Tallied(counters, stream)
    ensures Tallied(AddRecord(counters, r), stream + [r])
  {
    assert counters == TallyOf(stream);
    TallySnoc(stream, r);
  }

  /** Counts the resource attribute `key`, if there is one. */
  function CountKey(counters: map<string, nat>, resource: map<string, string>, key: string): map<string, nat> {
    if key in resource then Bump(counters, resource[key], 1) else counters
  }

  lemma CountKeyHolds(stream: seq<LogRecord>, r: LogRecord, key: string, f: LogRecord -> multiset<string>)
    requires f(r) == ResourceBag(r, key)
    ensures CountKey(Counts(Sum(stream, f)), r.resource, key) == Counts(Sum(stream + [r], f))
  {
    SumSnoc(stream, r, f);
    if key in r.resource {
      CountOneMore(Sum(stream, f), r.resource[key]);
    } else {
      assert Sum(stream, f) + multiset{} == Sum(stream, f);
    }
  }

  lemma CountSeverityHolds(stream: seq<LogRecord>, r: LogRecord)
    ensures Bump(Counts(Sum(stream, SeverityBag)), SeverityText(r.severity), 1)
        == Counts(Sum(stream + [r], SeverityBag))
  {
    SumSnoc(stream, r, SeverityBag);
    CountOneMore(Sum(stream, SeverityBag), SeverityText(r.severity));
  }

  lemma CountOneMore(m: multiset<string>, key: string)
    ensures Bump(Counts(m), key, 1) == Counts(m + multiset{key})
  {
  }

  // ----- one shard

  class LogStats {
    var totalLogs: nat
    var bySeverity: map<string, nat>
    var byApp: map<string, nat>
    var byNode: map<string, nat>
    var byNamespace: map<string, nat>
    var fieldCardinality: map<string, set<string>>
    var cappedFields: set<string>
    const trackCardinality: bool

    /** The records recorded so far, and the values seen so far of each field. */
    ghost var stream: seq<LogRecord>
    ghost var seen: map<string, seq<string>>

    ghost predicate IndexOk()
      reads this
    {
      IndexHolds(fieldCardinality, cappedFields, seen)
    }

    function Counters(): Tally
      reads this
    {
      Tally(totalLogs, bySeverity, byApp, byNode, byNamespace)
    }

    ghost predicate CountersOk()
      reads this
    {
      Tallied(Counters(), stream)
    }

    ghost predicate Valid()
      reads this
    {
      && CountersOk()
      && (if trackCardinality then IndexOk() && SeenAll(seen, stream) else fieldCardinality == map[])
    }

    constructor (track: bool)
      ensures Valid() && stream == [] && trackCardinality == track
      ensures fieldCardinality == map[] && Counters() == TallyOf([])
    {
      totalLogs := 0;
      bySeverity, byApp, byNode, byNamespace := map[], map[], map[], map[];
      fieldCardinality, cappedFields := map[], {};
      trackCardinality := track;
      stream, seen := [], map[];
    }

    method AddCardinality(key: string, value: string)
      requires trackCardinality && IndexOk()
      modifies this`fieldCardinality, this`cappedFields, this`seen
      ensures IndexOk()
      ensures seen == old(seen)[key := old(SeenOf(seen, key)) + [value]]
    {
      if |IndexOf(fieldCardinality, key)| >= MAX_FIELD_CARDINALITY {
        IndexFull(fieldCardinality, cappedFields, seen, key, value);
      } else {
        IndexGrows(fieldCardinality, cappedFields, seen, key, value);
      }
      seen := seen[key := SeenOf(seen, key) + [value]];
      if key in cappedFields {
        return;
      }
      if key in fieldCardinality && |fieldCardinality[key]| >= MAX_FIELD_CARDINALITY {
        cappedFields := cappedFields + {key};
        return;
      }
      var existing := if key in fieldCardinality then fieldCardinality[key] else {};
      fieldCardinality := fieldCardinality[key := existing + {value}];
    }

    /** The keys of a Go map come in an order that the program does not control; here it is arbitrary. */
    method AddAll(fields: map<string, string>)
      requires trackCardinality && IndexOk()
      modifies this`fieldCardinality, this`cappedFields, this`seen
      ensures IndexOk()
      ensures SeenMore(old(seen), seen, fields)
    {
      var todo := fields.Keys;
      while todo != {}
        invariant todo <= fields.Keys && IndexOk()
        invariant SeenSome(old(seen), seen, fields, fields.Keys - todo)
      {
        var k :| k in todo;
        SeenOneMore(old(seen), seen, fields, fields.Keys - todo, k);
        TakenOut(fields.Keys, todo, k);
        AddCardinality(k, fields[k]);
        todo := todo - {k};
      }
    }

    method CountRecord(r: LogRecord)
      modifies this`totalLogs, this`bySeverity, this`byApp, this`byNode, this`byNamespace
      ensures Counters() == AddRecord(old(Counters()), r)
    {
      totalLogs := totalLogs + 1;
      bySeverity := Bump(bySeverity, SeverityText(r.severity), 1);
      byApp := CountKey(byApp, r.resource, "service.name");
      byNode := CountKey(byNode, r.resource, "k8s.node.name");
      byNamespace := CountKey(byNamespace, r.resource, "k8s.namespace.name");
    }

    /** The part of `Record` that counts. */
    method Count(r: LogRecord)
      requires CountersOk()
      modifies this`totalLogs, this`bySeverity, this`byApp, this`byNode, this`byNamespace, this`stream
      ensures CountersOk() && stream == old(stream) + [r]
    {
      TalliedSnoc(Counters(), stream, r);
      CountRecord(r);
      stream := stream + [r];
    }

    /** The part of `Record` that indexes. */
    method Index(r: LogRecord, ghost before: seq<LogRecord>)
      requires trackCardinality && IndexOk() && SeenAll(seen, before)
      modifies this`fieldCardinality, this`cappedFields, this`seen
      ensures IndexOk() && SeenAll(seen, before + [r])
    {
      ghost var seen0 := seen;
      AddAll(r.resource);
      ghost var seen1 := seen;
      AddAll(r.attrs);
      SeenRecord(seen0, seen1, seen, before, r);
    }

    method Record(r: LogRecord)
      requires Valid()
      modifies this
      ensures Valid() && stream == old(stream) + [r]
    {
      Count(r);
      if trackCardinality {
        Index(r, old(stream));
      }
    }

    /** The part of `Merge` that adds one shard to the counters and the index of the result; `all` is what
        the counters hold so far. */
    method Absorb(shard: LogStats, ghost all: seq<LogRecord>)
      requires shard != this && shard.Valid()
      requires Tallied(Counters(), all)
      modifies this`totalLogs, this`bySeverity, this`byApp, this`byNode, this`byNamespace, this`fieldCardinality
      ensures Tallied(Counters(), all + shard.stream)
      ensures forall k ::
                IndexOf(fieldCardinality, k) == IndexOf(old(fieldCardinality), k) + IndexOf(shard.fieldCardinality, k)
    {
      TalliedAppend(Counters(), all, shard.Counters(), shard.stream);
      totalLogs := totalLogs + shard.totalLogs;
      bySeverity := AddCounters(bySeverity, shard.bySeverity);
      byApp := AddCounters(byApp, shard.byApp);
      byNode := AddCounters(byNode, shard.byNode);
      byNamespace := AddCounters(byNamespace, shard.byNamespace);
      fieldCardinality := AddIndex(fieldCardinality, shard.fieldCardinality);
      assert Counters() == AddTally(old(Counters()), shard.Counters());
    }
  }

  lemma ValuesSnoc(stream: seq<LogRecord>, r: LogRecord, key: string)
    ensures Values(stream + [r], key) == Values(stream, key) + ValuesIn(r, key)
  {
    assert (stream + [r])[..|stream|] == stream;
  }

  // ----- merging

  function Count(counters: map<string, nat>, key: string): nat {
    if key in counters then counters[key] else 0
  }

  function Added(a: map<string, nat>, b: map<string, nat>): map<string, nat> {
    map k | k in a.Keys + b.Keys :: Count(a, k) + Count(b, k)
  }

  lemma CountsAdd(a: multiset<string>, b: multiset<string>)
    ensures Added(Counts(a), Counts(b)) == Counts(a + b)
  {
  }

  lemma CountsAppend(xs: seq<LogRecord>, ys: seq<LogRecord>, f: LogRecord -> multiset<string>)
    ensures Added(Counts(Sum(xs, f)), Counts(Sum(ys, f))) == Counts(Sum(xs + ys, f))
  {
    SumAppend(xs, ys, f);
    CountsAdd(Sum(xs, f), Sum(ys, f));
  }

  function AddTally(a: Tally, b: Tally): Tally {
    Tally(a.total + b.total, Added(a.bySeverity, b.bySeverity), Added(a.byApp, b.byApp),
          Added(a.byNode, b.byNode), Added(a.byNamespace, b.byNamespace))
  }

  lemma TallyAppend(xs: seq<LogRecord>, ys: seq<LogRecord>)
    ensures AddTally(TallyOf(xs), TallyOf(ys)) == TallyOf(xs + ys)
  {
    CountsAppend(xs, ys, SeverityBag);
    CountsAppend(xs, ys, AppBag);
    CountsAppend(xs, ys, NodeBag);
    CountsAppend(xs, ys, NamespaceBag);
  }

  lemma TalliedAppend(a: Tally, xs: seq<LogRecord>, b: Tally, ys: seq<LogRecord>)
    requires Tallied(a, xs) && Tallied(b, ys)
    ensures Tallied(AddTally(a, b), xs + ys)
  {
    assert a == TallyOf(xs) && b == TallyOf(ys);
    TallyAppend(xs, ys);
  }

  /** Adds the counters of `from` to those of `into`. */
  method AddCounters(into: map<string, nat>, from: map<string, nat>) returns (sum: map<string, nat>)
    ensures sum == Added(into, from)
  {
    sum := into;
    var todo := from.Keys;
    while todo != {}
      invariant todo <= from.Keys && sum.Keys == into.Keys + (from.Keys - todo)
      invariant forall k | k in sum :: sum[k] == Count(into, k) + if k in todo then 0 else Count(from, k)
    {
      var k :| k in todo;
      sum := Bump(sum, k, from[k]);
      todo := todo - {k};
    }
  }

  /** Adds the index `from` to `into`. */
  method AddIndex(into: map<string, set<string>>, from: map<string, set<string>>)
    returns (sum: map<string, set<string>>)
    ensures sum.Keys == into.Keys + from.Keys
    ensures forall k :: IndexOf(sum, k) == IndexOf(into, k) + IndexOf(from, k)
  {
    sum := into;
    var todo := from.Keys;
    while todo != {}
      invariant todo <= from.Keys && sum.Keys == into.Keys + (from.Keys - todo)
      invariant forall k :: IndexOf(sum, k) == IndexOf(into, k) + if k in todo then {} else IndexOf(from, k)
    {
      var k :| k in todo;
      sum := sum[k := IndexOf(sum, k) + from[k]];
      todo := todo - {k};
    }
  }

  predicate Tracks(cardinalityShards: seq<nat>, i: nat) {
    if cardinalityShards == [] then i == 0 else i in cardinalityShards
  }

  method MakeShards(count: nat, cardinalityShards: seq<nat>) returns (made: seq<LogStats>)
    ensures |made| == count && fresh(made)
    ensures forall i | 0 <= i < |made| ::
              made[i].Valid() && made[i].stream == [] && (made[i].trackCardinality <==> Tracks(cardinalityShards, i))
    ensures forall i, j | 0 <= i < j < |made| :: made[i] != made[j]
  {
    made := [];
    while |made| < count
      invariant |made| <= count && fresh(made)
      invariant forall i | 0 <= i < |made| ::
                  && made[i].Valid() && made[i].stream == []
                  && (made[i].trackCardinality <==> Tracks(cardinalityShards, i))
      invariant forall i, j | 0 <= i < j < |made| :: made[i] != made[j]
    {
      var shard := new LogStats(Tracks(cardinalityShards, |made|));
      made := made + [shard];
    }
  }

  class ShardedLogStats {
    const shards: seq<LogStats>

    ghost predicate Valid()
      reads this, shards
    {
      && shards != []
      && (forall i | 0 <= i < |shards| :: shards[i].Valid())
      && (forall i, j | 0 <= i < j < |shards| :: shards[i] != shards[j])
    }

    ghost function Streams(): seq<seq<LogRecord>>
      reads this, shards
    {
      seq(|shards|, i requires 0 <= i < |shards| reads shards => shards[i].stream)
    }

    /** `n` shards, at least one; those listed track field cardinality, or shard 0 when none is listed. */
    constructor (n: int, cardinalityShards: seq<nat>)
      ensures Valid() && fresh(shards)
      ensures |shards| == if n < 1 then 1 else n
      ensures forall i | 0 <= i < |shards| ::
                && shards[i].stream == []
                && (shards[i].trackCardinality <==> Tracks(cardinalityShards, i))
    {
      var made := MakeShards(if n < 1 then 1 else n, cardinalityShards);
      shards := made;
    }

    function Shard(i: nat): LogStats
      requires shards != []
    {
      shards[i % |shards|]
    }

    ghost function Views(): seq<View>
      requires forall i | 0 <= i < |shards| :: shards[i].Valid()
      reads this, shards
    {
      seq(|shards|, i requires 0 <= i < |shards| reads shards => View(shards[i].trackCardinality, shards[i].stream))
    }

    /** The merge of the shards is what one shard fed all their streams would count, and its index is the
        union of what the tracking shards kept. */
    method Merge() returns (merged: LogStats)
      requires Valid()
      ensures fresh(merged)
      ensures merged.Counters() == TallyOf(Flatten(Streams()))
      ensures forall k :: IndexOf(merged.fieldCardinality, k) == Kept(Views(), k)
    {
      merged := new LogStats(true);
      for i := 0 to |shards|
        invariant Merged(merged, i)
      {
        MergeShard(merged, i);
      }
      assert Streams()[..|shards|] == Streams() && Views()[..|shards|] == Views();
    }

    /** `merged` holds what the first `n` shards give. */
    ghost predicate Merged(merged: LogStats, n: nat)
      reads this, shards, merged
    {
      && Valid() && n <= |shards| && merged !in shards
      && Tallied(merged.Counters(), Flatten(Streams()[..n]))
      && forall k :: IndexOf(merged.fieldCardinality, k) == Kept(Views()[..n], k)
    }

    method MergeShard(merged: LogStats, i: nat)
      requires Merged(merged, i) && i < |shards|
      modifies merged
      ensures Merged(merged, i + 1)
    {
      var shard := shards[i];
      ghost var streams, views := Streams(), Views();
      ShardKeeps(shard);
      MergeStep(streams, views, i);
      ghost var all := Flatten(streams[..i]);
      assert Flatten(streams[..i + 1]) == all + shard.stream;
      merged.Absorb(shard, all);
      assert Streams() == streams && Views() == views;
    }
  }

  lemma MergeStep(streams: seq<seq<LogRecord>>, views: seq<View>, i: nat)
    requires i < |streams| && i < |views|
    ensures Flatten(streams[..i + 1]) == Flatten(streams[..i]) + streams[i]
    ensures forall k :: Kept(views[..i + 1], k) == Kept(views[..i], k) + KeptBy(views[i], k)
  {
    assert streams[..i + 1][..i] == streams[..i] && views[..i + 1][..i] == views[..i];
  }

  /** What matters of a shard to the merged index. */
  datatype View = View(tracks: bool, stream: seq<LogRecord>)

  function KeptBy(shard: View, key: string): set<string> {
    if shard.tracks then FirstDistinct(Values(shard.stream, key)) else {}
  }

  /** The union over the tracking shards of what each kept. */
  function Kept(shards: seq<View>, key: string): set<string> {
    if shards == [] then {} else Kept(shards[..|shards| - 1], key) + KeptBy(shards[|shards| - 1], key)
  }

  lemma ShardKeeps(shard: LogStats)
    requires shard.Valid()
    ensures forall k :: IndexOf(shard.fieldCardinality, k) == KeptBy(View(shard.trackCardinality, shard.stream), k)
  {
    assert FirstDistinct([]) == {};
  }

  /** The values of `key` that reached a tracking shard. */
  function Tracked(shards: seq<View>, key: string): set<string> {
    if shards == [] then {}
    else
      var last := shards[|shards| - 1];
      Tracked(shards[..|shards| - 1], key) + if last.tracks then Elements(Values(last.stream, key)) else {}
  }

  /** The merged index is exact for what the tracking shards saw, provided none of them was overrun. */
  lemma {:induction false} MergedIndexExact(shards: seq<View>, key: string)
    requires NotOverrun(shards, key)
    ensures Kept(shards, key) == Tracked(shards, key)
  {
    if shards != [] {
      MergedIndexExact(shards[..|shards| - 1], key);
      IndexExactIff(Values(shards[|shards| - 1].stream, key));
    }
  }

  // ----- what a merge means for the emitted records

  lemma {:induction false} ValuesAppend(xs: seq<LogRecord>, ys: seq<LogRecord>, key: string)
    ensures Values(xs + ys, key) == Values(xs, key) + Values(ys, key)
    decreases |ys|
  {
    if ys == [] {
      assert xs + ys == xs;
    } else {
      var n := |ys| - 1;
      assert xs + ys == (xs + ys[..n]) + [ys[n]];
      ValuesSnoc(xs + ys[..n], ys[n], key);
      ValuesAppend(xs, ys[..n], key);
    }
  }

  lemma {:induction false} ValuesOf(stream: seq<LogRecord>, key: string, v: string)
    ensures v in Values(stream, key) <==> exists r :: r in multiset(stream) && v in ValuesIn(r, key)
  {
    if stream != [] {
      var front, last := stream[..|stream| - 1], stream[|stream| - 1];
      ValuesOf(front, key, v);
      assert stream == front + [last];
    }
  }

  /** The values of a field do not depend on the order of the records. */
  lemma SameValues(xs: seq<LogRecord>, ys: seq<LogRecord>, key: string)
    requires multiset(xs) == multiset(ys)
    ensures Elements(Values(xs, key)) == Elements(Values(ys, key))
  {
    forall v
      ensures v in Values(xs, key) <==> v in Values(ys, key)
    {
      ValuesOf(xs, key, v);
      ValuesOf(ys, key, v);
    }
  }

  function StreamsOf(shards: seq<View>): seq<seq<LogRecord>> {
    if shards == [] then [] else StreamsOf(shards[..|shards| - 1]) + [shards[|shards| - 1].stream]
  }

  /** What the tracking shards saw is among the values of all streams together, and is all of them if every
      shard tracks. */
  lemma {:induction false} TrackedValues(shards: seq<View>, key: string)
    ensures Tracked(shards, key) <= Elements(Values(Flatten(StreamsOf(shards)), key))
    ensures (forall i | 0 <= i < |shards| :: shards[i].tracks) ==>
              Tracked(shards, key) == Elements(Values(Flatten(StreamsOf(shards)), key))
  {
    if shards != [] {
      var front, last := shards[..|shards| - 1], shards[|shards| - 1];
      TrackedValues(front, key);
      assert StreamsOf(shards)[..|StreamsOf(shards)| - 1] == StreamsOf(front);
      ValuesAppend(Flatten(StreamsOf(front)), last.stream, key);
    }
  }

  /** The merged index holds nothing that the tracking shards did not see. */
  lemma {:induction false} KeptWasTracked(shards: seq<View>, key: string)
    ensures Kept(shards, key) <= Tracked(shards, key)
  {
    if shards != [] {
      KeptWasTracked(shards[..|shards| - 1], key);
      DistinctElements(Values(shards[|shards| - 1].stream, key));
    }
  }

  /** No tracking shard saw more distinct values of the field than the index holds. */
  predicate NotOverrun(shards: seq<View>, key: string) {
    forall i | 0 <= i < |shards| && shards[i].tracks ::
      |Elements(Values(shards[i].stream, key))| <= MAX_FIELD_CARDINALITY
  }

  /** The merged index of shards that a stream of records was dealt out to holds only values of the stream.
      If no tracking shard was overrun, it holds all that these saw; if every shard tracks, all there are. */
  lemma IndexOfTheStream(shards: seq<View>, emitted: seq<LogRecord>, key: string)
    requires multiset(Flatten(StreamsOf(shards))) == multiset(emitted)
    ensures Kept(shards, key) <= Elements(Values(emitted, key))
    ensures NotOverrun(shards, key) ==> Kept(shards, key) == Tracked(shards, key)
    ensures NotOverrun(shards, key) && (forall i | 0 <= i < |shards| :: shards[i].tracks) ==>
              Kept(shards, key) == Elements(Values(emitted, key))
  {
    KeptWasTracked(shards, key);
    TrackedValues(shards, key);
    SameValues(Flatten(StreamsOf(shards)), emitted, key);
    if NotOverrun(shards, key) {
      MergedIndexExact(shards, key);
    }
  }

  /** Whatever way the records of one stream are dealt out to shards, the counters of the merge are those
      of one shard that recorded the stream. */
  lemma MergeCountsTheStream(streams: seq<seq<LogRecord>>, emitted: seq<LogRecord>)
    requires multiset(Flatten(streams)) == multiset(emitted)
    ensures TallyOf(Flatten(streams)) == TallyOf(emitted)
  {
    assert |multiset(Flatten(streams))| == |Flatten(streams)| && |multiset(emitted)| == |emitted|;
    SumPermutation(Flatten(streams), emitted, SeverityBag);
    SumPermutation(Flatten(streams), emitted, AppBag);
    SumPermutation(Flatten(streams), emitted, NodeBag);
    SumPermutation(Flatten(streams), emitted, NamespaceBag);
  }

  /** Every record has one severity, so the severity counters add up to the number of records. */
  lemma {:induction false} SeveritiesAddUp(stream: seq<LogRecord>)
    ensures |Sum(stream, SeverityBag)| == |stream|
  {
    if stream != [] {
      SeveritiesAddUp(stream[..|stream| - 1]);
    }
  }
}
