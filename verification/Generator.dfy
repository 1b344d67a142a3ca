/** Generating a record: the plain generator, and the prepared one that reuses its buffers. */
module Generator {
  import opened Rand
  import opened Records
  import opened Values
  import opened Sprintf
  import opened Weights
  import opened LongTail

  type Gen = (Rng, int) -> (Value, Rng)

  datatype Attr = Attr(key: string, gen: Gen)

  datatype RareAttr = RareAttr(key: string, probability: real, gen: Gen)

  datatype Template = Template(
    severity: Severity, format: string, args: seq<Gen>,
    attrs: seq<Attr>, attrFromArg: map<string, int>, rareAttrs: seq<RareAttr>)
  {
    /** There is an argument for every verb; otherwise formatting panics. */
    predicate Ok() {
      Arity(Parse(format)) <= |args|
    }
  }

  datatype Profile = Profile(messages: seq<Template>, weights: seq<int>, longTail: Option<LongTailSet>) {
    predicate Ok() {
      && |weights| == 6
      && (forall i | 0 <= i < |messages| :: messages[i].Ok())
      && (longTail.Some? ==> longTail.value.Valid())
    }
  }

  datatype Generated = Generated(body: string, severity: Severity, attrs: map<string, Value>, rng: Rng)

  // ----- the phases of a record

  function RunArgs(gens: seq<Gen>, rng: Rng, ts: int): (r: (seq<Value>, Rng))
    ensures |r.0| == |gens|
  {
    if gens == [] then ([], rng)
    else
      var (vs, r1) := RunArgs(gens[..|gens| - 1], rng, ts);
      var (v, r2) := gens[|gens| - 1](r1, ts);
      (vs + [v], r2)
  }

  /** A routed URL is stored as its template. */
  function Stored(v: Value): Value {
    if v.Route? then Str(v.template) else v
  }

  function FromArgs(attrFromArg: map<string, int>, keys: set<string>, args: seq<Value>): map<string, Value>
    requires keys <= attrFromArg.Keys
  {
    map k | k in keys && 0 <= attrFromArg[k] < |args| :: Stored(args[attrFromArg[k]])
  }

  /** An attribute that is already there is neither drawn nor overwritten; a nil value is left out. */
  function OneAttr(a: Attr, m: map<string, Value>, rng: Rng, ts: int): (map<string, Value>, Rng) {
    if a.key in m then (m, rng)
    else
      var (v, r) := a.gen(rng, ts);
      (if v == Nil then m else m[a.key := v], r)
  }

  function RunAttrs(attrs: seq<Attr>, m: map<string, Value>, rng: Rng, ts: int): (map<string, Value>, Rng) {
    if attrs == [] then (m, rng)
    else
      var (m1, r1) := RunAttrs(attrs[..|attrs| - 1], m, rng, ts);
      OneAttr(attrs[|attrs| - 1], m1, r1, ts)
  }

  /** A rare attribute is always drawn, with its roll, and stored if the roll passes. */
  function OneRare(a: RareAttr, m: map<string, Value>, rng: Rng, ts: int): (map<string, Value>, Rng) {
    var (v, r1) := a.gen(rng, ts);
    var (roll, r2) := r1.Float64();
    (if roll < a.probability then m[a.key := v] else m, r2)
  }

  function RunRare(rare: seq<RareAttr>, m: map<string, Value>, rng: Rng, ts: int): (map<string, Value>, Rng) {
    if rare == [] then (m, rng)
    else
      var (m1, r1) := RunRare(rare[..|rare| - 1], m, rng, ts);
      OneRare(rare[|rare| - 1], m1, r1, ts)
  }

  function Attributes(t: Template, args: seq<Value>, rng: Rng, ts: int): (map<string, Value>, Rng) {
    var (m1, r1) := RunAttrs(t.attrs, FromArgs(t.attrFromArg, t.attrFromArg.Keys, args), rng, ts);
    RunRare(t.rareAttrs, m1, r1, ts)
  }

  function FromTemplate(printer: (string, seq<Value>) -> string, t: Template, rng: Rng, ts: int): Generated {
    var (args, r1) := RunArgs(t.args, rng, ts);
    var (attrs, r2) := Attributes(t, args, r1, ts);
    Generated(printer(t.format, args), t.severity, attrs, r2)
  }

  // ----- choosing a message

  function Filter(msgs: seq<Template>, sev: Severity): seq<Template> {
    if msgs == [] then []
    else
      var last := msgs[|msgs| - 1];
      Filter(msgs[..|msgs| - 1], sev) + if last.severity == sev then [last] else []
  }

  lemma {:induction false} FilterOk(msgs: seq<Template>, sev: Severity)
    requires forall i | 0 <= i < |msgs| :: msgs[i].Ok()
    ensures forall i | 0 <= i < |Filter(msgs, sev)| :: Filter(msgs, sev)[i].Ok() && Filter(msgs, sev)[i].severity == sev
  {
    if msgs != [] {
      FilterOk(msgs[..|msgs| - 1], sev);
    }
  }

  /** Without a message of the severity, the plain generator falls back to the first INFO message ... */
  function PlainCandidates(msgs: seq<Template>, sev: Severity): seq<Template> {
    if Filter(msgs, sev) != [] then Filter(msgs, sev)
    else if Filter(msgs, Info) != [] then Filter(msgs, Info)[..1]
    else if msgs != [] then msgs[..1]
    else []
  }

  /** ... and the prepared one to all of them. */
  function PreparedCandidates(msgs: seq<Template>, sev: Severity): seq<Template> {
    if Filter(msgs, sev) != [] then Filter(msgs, sev)
    else if Filter(msgs, Info) != [] then Filter(msgs, Info)
    else if msgs != [] then msgs[..1]
    else []
  }

  function Generate(
    printer: (string, seq<Value>) -> string, candidates: seq<Template>, longTail: Option<LongTailSet>, rng: Rng,
    ts: int)
    : Generated
    requires longTail.Some? ==> longTail.value.Valid()
  {
    if candidates == [] then Generated("no messages configured", Info, map[], rng)
    else
      var (i, r) := rng.Intn(|candidates|);
      WithLongTail(longTail, FromTemplate(printer, candidates[i], r, ts))
  }

  function WithLongTail(longTail: Option<LongTailSet>, g: Generated): Generated
    requires longTail.Some? ==> longTail.value.Valid()
  {
    if longTail.None? then g
    else
      var (attrs, r) := Emitted(longTail.value, g.rng, g.attrs);
      g.(attrs := attrs, rng := r)
  }

  /** The plain generator, which knows no long tail, with `printer` for its formatter. */
  function Plain(printer: (string, seq<Value>) -> string, p: Profile, rng: Rng, ts: int): Generated
    requires p.Ok()
  {
    var (sev, r) := PickSeverity(rng, p.weights);
    Generate(printer, PlainCandidates(p.messages, sev), None, r, ts)
  }

  /** The text that `SprintfSimple` gives where it does not panic. */
  function Printer(lib: Library): (string, seq<Value>) -> string {
    (format: string, args: seq<Value>) => match Format(lib, format, args) case Some(s) => s case None => ""
  }

  function Prepared(lib: Library, p: Profile, rng: Rng, ts: int): Generated
    requires p.Ok()
  {
    var (sev, r) := PickSeverity(rng, p.weights);
    Generate(Printer(lib), PreparedCandidates(p.messages, sev), p.longTail, r, ts)
  }

  // ----- the prepared generator against the plain one

  predicate FallbacksAgree(msgs: seq<Template>, sev: Severity) {
    Filter(msgs, sev) != [] || |Filter(msgs, Info)| <= 1
  }

  /** Both generators choose among the same messages exactly when the picked severity has a message or
      there is at most one INFO message. */
  lemma CandidatesAgreeIff(msgs: seq<Template>, sev: Severity)
    ensures PlainCandidates(msgs, sev) == PreparedCandidates(msgs, sev) <==> FallbacksAgree(msgs, sev)
  {
    var infos := Filter(msgs, Info);
    if |infos| == 1 {
      assert infos[..1] == infos;
    } else if |infos| > 1 {
      assert |infos[..1]| != |infos|;
    }
  }

  /** Then the prepared generator gives the plain one's body, severity, attributes and generator state,
      with the long tail laid over the attributes. */
  lemma PreparedRefinesPlain(lib: Library, p: Profile, rng: Rng, ts: int)
    requires p.Ok() && FallbacksAgree(p.messages, PickSeverity(rng, p.weights).0)
    ensures Prepared(lib, p, rng, ts) ==
            if p.messages == [] then Plain(Printer(lib), p, rng, ts)
            else WithLongTail(p.longTail, Plain(Printer(lib), p, rng, ts))
  {
    var sev := PickSeverity(rng, p.weights).0;
    CandidatesAgreeIff(p.messages, sev);
    if p.messages == [] {
      assert Filter(p.messages, sev) == [] && Filter(p.messages, Info) == [];
    }
  }

  function Say(text: string): Template {
    Template(Info, text, [], [], map[], [])
  }

  /** A source that answers one to every request. */
  function Ones(): Rng {
    Rng(Source((seed, calls) => 1, (seed, calls) => 0.0), 0, [])
  }

  /** Two INFO messages, and nothing but errors. */
  function TwoInfos(): Profile {
    Profile([Say("a"), Say("b")], [0, 0, 0, 0, 100, 100], None)
  }

  lemma TwoInfosCandidates()
    ensures PickSeverity(Ones(), TwoInfos().weights) == (Error, Ones().Intn(100).1)
    ensures PlainCandidates(TwoInfos().messages, Error) == [Say("a")]
    ensures PreparedCandidates(TwoInfos().messages, Error) == [Say("a"), Say("b")]
  {
    SeverityFallsTo(TwoInfos().weights, 1, 4);
    OnlyInfos(Say("a"), Say("b"));
  }

  lemma OnlyInfos(a: Template, b: Template)
    requires a.severity == Info && b.severity == Info
    ensures PlainCandidates([a, b], Error) == [a] && PreparedCandidates([a, b], Error) == [a, b]
  {
    FilterSnoc([], a, Error);
    FilterSnoc([], a, Info);
    FilterSnoc([a], b, Error);
    FilterSnoc([a], b, Info);
    assert [] + [a] == [a] && [a] + [b] == [a, b];
  }

  lemma FilterSnoc(msgs: seq<Template>, t: Template, sev: Severity)
    ensures Filter(msgs + [t], sev) == Filter(msgs, sev) + if t.severity == sev then [t] else []
  {
    assert (msgs + [t])[..|msgs|] == msgs;
  }

  lemma SayGenerates(lib: Library, candidates: seq<Template>, i: nat, c: char, rng: Rng, ts: int)
    requires |candidates| > 0 && rng.Intn(|candidates|).0 == i && candidates[i] == Say([c]) && c != '%'
    ensures Generate(Printer(lib), candidates, None, rng, ts).body == [c]
  {
    OneLetter(lib, c);
    assert RunArgs(Say([c]).args, rng.Intn(|candidates|).1, ts).0 == [];
  }

  /** Otherwise they can differ: with two INFO messages and a roll for ERROR, which has none, the plain
      generator says the first and the prepared one may say the second. */
  lemma FallbacksDiffer(lib: Library, ts: int)
    ensures TwoInfos().Ok()
    ensures Plain(Printer(lib), TwoInfos(), Ones(), ts).body == "a"
    ensures Prepared(lib, TwoInfos(), Ones(), ts).body == "b"
  {
    TwoInfosCandidates();
    OneLetter(lib, 'a');
    OneLetter(lib, 'b');
    assert TwoInfos().messages[0].Ok() && TwoInfos().messages[1].Ok();
    var r := Ones().Intn(100).1;
    SayGenerates(lib, [Say("a")], 0, 'a', r, ts);
    SayGenerates(lib, [Say("a"), Say("b")], 1, 'b', r, ts);
  }

  lemma OneLetter(lib: Library, c: char)
    requires c != '%'
    ensures Arity(Parse([c])) == 0 && Format(lib, [c], []) == Some([c])
  {
    assert [c][1..] == "" && Parse("") == [];
    assert Parse([c]) == [Literal(c)] + [] == [Literal(c)];
    assert [Literal(c)][1..] == [] && Render(lib, [], []) == Some("");
    assert [c] + "" == [c];
  }

  // ----- exactly when the bodies agree

  /** A message whose text is fixed. */
  predicate Fixed(t: Template) {
    Arity(Parse(t.format)) == 0
  }

  function Text(lib: Library, t: Template): string
    requires Fixed(t)
  {
    FailsIffShort(lib, Parse(t.format), []);
    Format(lib, t.format, []).value
  }

  lemma FixedBody(lib: Library, t: Template, rng: Rng, ts: int)
    requires Fixed(t)
    ensures FromTemplate(Printer(lib), t, rng, ts).body == Text(lib, t)
  {
    var args := RunArgs(t.args, rng, ts).0;
    ConsumesItsArity(lib, t.format, args);
    assert args[..0] == [];
    FailsIffShort(lib, Parse(t.format), []);
  }

  lemma GeneratedBody(lib: Library, candidates: seq<Template>, longTail: Option<LongTailSet>, rng: Rng, ts: int, i: nat)
    requires i < |candidates| && rng.Intn(|candidates|).0 == i && Fixed(candidates[i])
    requires longTail.Some? ==> longTail.value.Valid()
    ensures Generate(Printer(lib), candidates, longTail, rng, ts).body == Text(lib, candidates[i])
  {
    FixedBody(lib, candidates[i], rng.Intn(|candidates|).1, ts);
  }

  /** A source that answers the first request with `n` and all others with `k`. */
  function Answers(n: nat, k: nat): Rng {
    Rng(Source((seed, calls) => if calls == [] then n else k, (seed, calls) => 0.0), 0, [])
  }

  lemma AnswersPick(n: nat, k: nat, w: seq<int>, size: nat)
    requires n < 100 && k < size && |w| == 6
    ensures var (sev, r) := PickSeverity(Answers(n, k), w);
            sev == SeverityFor(w, n) && r.Intn(size).0 == k
  {
    assert Answers(n, k).Intn(100).1.Raw() == k;
  }

  /** Without a message of the picked severity, the plain generator says what the first INFO message says. */
  lemma PlainSays(lib: Library, p: Profile, rng: Rng, ts: int)
    requires p.Ok() && Filter(p.messages, PickSeverity(rng, p.weights).0) == []
    requires Filter(p.messages, Info) != [] && Fixed(Filter(p.messages, Info)[0])
    ensures Plain(Printer(lib), p, rng, ts).body == Text(lib, Filter(p.messages, Info)[0])
  {
    GeneratedBody(lib, Filter(p.messages, Info)[..1], None, PickSeverity(rng, p.weights).1, ts, 0);
  }

  /** The prepared one says what one of them says. */
  lemma PreparedSays(lib: Library, p: Profile, rng: Rng, ts: int, k: nat)
    requires p.Ok() && Filter(p.messages, PickSeverity(rng, p.weights).0) == []
    requires var infos := Filter(p.messages, Info);
             k < |infos| && PickSeverity(rng, p.weights).1.Intn(|infos|).0 == k && Fixed(infos[k])
    ensures Prepared(lib, p, rng, ts).body == Text(lib, Filter(p.messages, Info)[k])
  {
    GeneratedBody(lib, Filter(p.messages, Info), p.longTail, PickSeverity(rng, p.weights).1, ts, k);
  }

  /** Whatever the profile: if a roll picks a severity without a message, and an INFO message of fixed text says
      something else than the first, of fixed text too, then some source makes the bodies differ. */
  lemma SomeSourceDiffers(lib: Library, p: Profile, ts: int, n: nat, k: nat)
    requires p.Ok() && n < 100 && Filter(p.messages, SeverityFor(p.weights, n)) == []
    requires var infos := Filter(p.messages, Info);
             k < |infos| && Fixed(infos[0]) && Fixed(infos[k]) && Text(lib, infos[0]) != Text(lib, infos[k])
    ensures Plain(Printer(lib), p, Answers(n, k), ts).body != Prepared(lib, p, Answers(n, k), ts).body
  {
    var infos := Filter(p.messages, Info);
    PlainSays(lib, p, Answers(n, k), ts);
    AnswersPick(n, k, p.weights, |infos|);
    PreparedSays(lib, p, Answers(n, k), ts, k);
  }

  predicate SayTheSame(lib: Library, msgs: seq<Template>)
    requires forall i | 0 <= i < |msgs| :: Fixed(msgs[i])
  {
    forall i | 0 <= i < |msgs| :: Text(lib, msgs[i]) == Text(lib, msgs[0])
  }

  lemma SameTextSameBody(lib: Library, p: Profile, rng: Rng, ts: int)
    requires p.Ok() && forall i | 0 <= i < |Filter(p.messages, Info)| :: Fixed(Filter(p.messages, Info)[i])
    requires Filter(p.messages, PickSeverity(rng, p.weights).0) == [] && SayTheSame(lib, Filter(p.messages, Info))
    ensures Plain(Printer(lib), p, rng, ts).body == Prepared(lib, p, rng, ts).body
  {
    var infos, r := Filter(p.messages, Info), PickSeverity(rng, p.weights).1;
    if infos == [] {
      CandidatesAgreeIff(p.messages, PickSeverity(rng, p.weights).0);
      PreparedRefinesPlain(lib, p, rng, ts);
    } else {
      PlainSays(lib, p, rng, ts);
      PreparedSays(lib, p, rng, ts, r.Intn(|infos|).0);
    }
  }

  /** Where the INFO messages have fixed texts, both generators give the same body on every source exactly when
      every severity that a roll can pick has a message or all INFO messages say the same. */
  lemma BodiesAgreeIff(lib: Library, p: Profile, ts: int)
    requires p.Ok() && forall i | 0 <= i < |Filter(p.messages, Info)| :: Fixed(Filter(p.messages, Info)[i])
    ensures (forall rng :: Plain(Printer(lib), p, rng, ts).body == Prepared(lib, p, rng, ts).body)
       <==> (forall n | 0 <= n < 100 :: Filter(p.messages, SeverityFor(p.weights, n)) != [])
            || SayTheSame(lib, Filter(p.messages, Info))
  {
    var infos := Filter(p.messages, Info);
    if (forall n | 0 <= n < 100 :: Filter(p.messages, SeverityFor(p.weights, n)) != []) || SayTheSame(lib, infos) {
      forall rng
        ensures Plain(Printer(lib), p, rng, ts).body == Prepared(lib, p, rng, ts).body
      {
        var sev := PickSeverity(rng, p.weights).0;
        assert sev == SeverityFor(p.weights, rng.Intn(100).0);
        if Filter(p.messages, sev) != [] {
          PreparedRefinesPlain(lib, p, rng, ts);
        } else {
          SameTextSameBody(lib, p, rng, ts);
        }
      }
    } else {
      var n :| 0 <= n < 100 && Filter(p.messages, SeverityFor(p.weights, n)) == [];
      var k :| 0 <= k < |infos| && Text(lib, infos[k]) != Text(lib, infos[0]);
      SomeSourceDiffers(lib, p, ts, n, k);
    }
  }

  // ----- the program's loops

  method FilterMessagesBySeverity(msgs: seq<Template>, sev: Severity) returns (out: seq<Template>)
    ensures out == Filter(msgs, sev)
  {
    out := [];
    for i := 0 to |msgs|
      invariant out == Filter(msgs[..i], sev)
    {
      assert msgs[..i + 1][..i] == msgs[..i];
      if msgs[i].severity == sev {
        out := out + [msgs[i]];
      }
    }
    assert msgs[..|msgs|] == msgs;
  }

  method FillArgs(gens: seq<Gen>, rng: Rng, ts: int, args: array<Value>) returns (next: Rng)
    requires |gens| <= args.Length
    modifies args
    ensures (args[..|gens|], next) == RunArgs(gens, rng, ts)
  {
    next := rng;
    for i := 0 to |gens|
      invariant (args[..i], next) == RunArgs(gens[..i], rng, ts)
    {
      assert gens[..i + 1][..i] == gens[..i];
      var (v, r) := gens[i](next, ts);
      args[i] := v;
      next := r;
      assert args[..i + 1] == args[..i] + [v];
    }
    assert gens[..|gens|] == gens;
  }

  /** The keys of a Go map come in an arbitrary order; they are distinct, so the order does not matter. */
  method PutFromArgs(t: Template, args: seq<Value>, attrsOut: AttrMap)
    requires attrsOut.fields == map[]
    modifies attrsOut
    ensures attrsOut.fields == FromArgs(t.attrFromArg, t.attrFromArg.Keys, args)
  {
    var todo := t.attrFromArg.Keys;
    while todo != {}
      invariant todo <= t.attrFromArg.Keys
      invariant attrsOut.fields == FromArgs(t.attrFromArg, t.attrFromArg.Keys - todo, args)
    {
      var k :| k in todo;
      var idx := t.attrFromArg[k];
      if 0 <= idx < |args| {
        attrsOut.Put(k, Stored(args[idx]));
      }
      todo := todo - {k};
    }
  }

  method PutAttrs(attrs: seq<Attr>, rng: Rng, ts: int, attrsOut: AttrMap) returns (next: Rng)
    modifies attrsOut
    ensures (attrsOut.fields, next) == RunAttrs(attrs, old(attrsOut.fields), rng, ts)
  {
    next := rng;
    for i := 0 to |attrs|
      invariant (attrsOut.fields, next) == RunAttrs(attrs[..i], old(attrsOut.fields), rng, ts)
    {
      assert attrs[..i + 1][..i] == attrs[..i];
      if attrs[i].key in attrsOut.fields {
        continue;
      }
      var (v, r) := attrs[i].gen(next, ts);
      next := r;
      if v != Nil {
        attrsOut.Put(attrs[i].key, v);
      }
    }
    assert attrs[..|attrs|] == attrs;
  }

  method PutRare(rare: seq<RareAttr>, rng: Rng, ts: int, attrsOut: AttrMap) returns (next: Rng)
    modifies attrsOut
    ensures (attrsOut.fields, next) == RunRare(rare, old(attrsOut.fields), rng, ts)
  {
    next := rng;
    for i := 0 to |rare|
      invariant (attrsOut.fields, next) == RunRare(rare[..i], old(attrsOut.fields), rng, ts)
    {
      assert rare[..i + 1][..i] == rare[..i];
      var (v, r1) := rare[i].gen(next, ts);
      var (roll, r2) := r1.Float64();
      next := r2;
      if roll < rare[i].probability {
        attrsOut.Put(rare[i].key, v);
      }
    }
    assert rare[..|rare|] == rare;
  }

  method PutAttributes(t: Template, args: seq<Value>, rng: Rng, ts: int, attrsOut: AttrMap) returns (next: Rng)
    requires attrsOut.fields == map[]
    modifies attrsOut
    ensures (attrsOut.fields, next) == Attributes(t, args, rng, ts)
  {
    PutFromArgs(t, args, attrsOut);
    next := PutAttrs(t.attrs, rng, ts, attrsOut);
    next := PutRare(t.rareAttrs, next, ts, attrsOut);
  }

  lemma NoAttributes(t: Template, args: seq<Value>, rng: Rng, ts: int)
    requires t.attrFromArg == map[] && t.attrs == [] && t.rareAttrs == []
    ensures Attributes(t, args, rng, ts) == (map[], rng)
  {
  }

  /** The plain generator: a fresh map, a fresh argument slice, and a search through all messages. */
  method GenerateLogRecord(printer: (string, seq<Value>) -> string, rng: Rng, profile: Profile, ts: int)
    returns (body: string, severity: Severity, attrs: Option<AttrMap>, next: Rng)
    requires profile.Ok()
    ensures attrs.Some? ==> fresh(attrs.value)
    ensures Generated(body, severity, if attrs.None? then map[] else attrs.value.fields, next)
        == Plain(printer, profile, rng, ts)
  {
    var sev, r := PickSeverityFromWeights(rng, profile.weights);
    var msgs := FilterMessagesBySeverity(profile.messages, sev);
    if |msgs| == 0 {
      msgs := FirstInfo(profile.messages);
      if |msgs| == 0 && |profile.messages| > 0 {
        msgs := profile.messages[..1];
      }
    }
    if |msgs| == 0 {
      return "no messages configured", Info, None, r;
    }
    var (i, r1) := r.Intn(|msgs|);
    var t := msgs[i];
    var args := new Value[|t.args|];
    next := FillArgs(t.args, r1, ts, args);
    var vs := args[..|t.args|];
    body := printer(t.format, vs);
    attrs := None;
    if t.attrFromArg != map[] || |t.attrs| > 0 || |t.rareAttrs| > 0 {
      var m := new AttrMap();
      next := PutAttributes(t, vs, next, ts, m);
      attrs := Some(m);
    } else {
      NoAttributes(t, vs, next, ts);
    }
    severity := t.severity;
  }

  method FirstInfo(msgs: seq<Template>) returns (found: seq<Template>)
    ensures found == if Filter(msgs, Info) == [] then [] else Filter(msgs, Info)[..1]
  {
    found := [];
    for i := 0 to |msgs|
      invariant Filter(msgs[..i], Info) == []
    {
      assert msgs[..i + 1][..i] == msgs[..i];
      if msgs[i].severity == Info {
        FilterPrefix(msgs, i + 1, Info);
        return [msgs[i]];
      }
    }
    assert msgs[..|msgs|] == msgs;
  }

  lemma {:induction false} FilterPrefix(msgs: seq<Template>, n: nat, sev: Severity)
    requires n <= |msgs|
    ensures Filter(msgs[..n], sev) <= Filter(msgs, sev)
  {
    if n == |msgs| {
      assert msgs[..n] == msgs;
    } else {
      FilterPrefix(msgs[..|msgs| - 1], n, sev);
      assert msgs[..|msgs| - 1][..n] == msgs[..n];
    }
  }

  // ----- the prepared generator

  function Bucket(buckets: map<Severity, seq<Template>>, sev: Severity): seq<Template> {
    if sev in buckets then buckets[sev] else []
  }

  class PreparedProfile {
    var profile: Profile
    const bySeverity: map<Severity, seq<Template>>

    /** The buckets are what filtering would find. */
    ghost predicate Valid()
      reads this
    {
      profile.Ok() && forall sev :: Bucket(bySeverity, sev) == Filter(profile.messages, sev)
    }

    constructor (p: Profile)
      requires p.Ok()
      ensures Valid() && profile == p
    {
      var buckets: map<Severity, seq<Template>> := map[];
      for i := 0 to |p.messages|
        invariant forall sev :: Bucket(buckets, sev) == Filter(p.messages[..i], sev)
      {
        assert p.messages[..i + 1][..i] == p.messages[..i];
        var m := p.messages[i];
        buckets := buckets[m.severity := Bucket(buckets, m.severity) + [m]];
      }
      assert p.messages[..|p.messages|] == p.messages;
      profile := p;
      bySeverity := buckets;
    }

    method OverrideSeverityWeights(w: seq<int>)
      requires Valid() && |w| == 6
      modifies this
      ensures Valid() && profile == old(profile).(weights := w)
    {
      profile := profile.(weights := w);
    }

    /** The size of an argument buffer that is never too small. */
    method MaxArgs() returns (n: nat)
      ensures forall i | 0 <= i < |profile.messages| :: |profile.messages[i].args| <= n
      ensures n == 0 || exists i :: 0 <= i < |profile.messages| && |profile.messages[i].args| == n
    {
      n := 0;
      for i := 0 to |profile.messages|
        invariant forall k | 0 <= k < i :: |profile.messages[k].args| <= n
        invariant n == 0 || exists k :: 0 <= k < i && |profile.messages[k].args| == n
      {
        if |profile.messages[i].args| > n {
          n := |profile.messages[i].args|;
        }
      }
    }
  }

  /** The prepared generator: whatever the reused map, argument buffer and byte buffer held, the record and
      the generator state afterwards are `Prepared`'s, and the map holds the record's attributes alone. */
  method GenerateFromPreparedInto(
      lib: Library, rng: Rng, pp: PreparedProfile, ts: int, attrsOut: AttrMap, argsBuf: array<Value>, bodyBuf: string)
    returns (body: string, severity: Severity, bodyBufOut: string, next: Rng)
    requires pp.Valid()
    modifies attrsOut, argsBuf
    ensures Generated(body, severity, attrsOut.fields, next) == Prepared(lib, pp.profile, rng, ts)
  {
    attrsOut.Clear();
    var p := pp.profile;
    var sev, r := PickSeverityFromWeights(rng, p.weights);
    var msgs := Bucket(pp.bySeverity, sev);
    if |msgs| == 0 {
      msgs := Bucket(pp.bySeverity, Info);
      if |msgs| == 0 && |p.messages| > 0 {
        msgs := p.messages[..1];
      }
    }
    assert msgs == PreparedCandidates(p.messages, sev);
    if |msgs| == 0 {
      return "no messages configured", Info, bodyBuf, r;
    }
    var (i, r1) := r.Intn(|msgs|);
    var t := msgs[i];
    FilterOk(p.messages, sev);
    FilterOk(p.messages, Info);
    var args := argsBuf;
    if argsBuf.Length < |t.args| {
      args := new Value[|t.args|];
    }
    next := FillArgs(t.args, r1, ts, args);
    var vs := args[..|t.args|];
    var text;
    text, bodyBufOut := SprintfSimple(lib, bodyBuf, t.format, vs);
    body := text.value;
    if t.attrFromArg != map[] || |t.attrs| > 0 || |t.rareAttrs| > 0 || p.longTail.Some? {
      next := PutAttributes(t, vs, next, ts, attrsOut);
      if p.longTail.Some? {
        next := EmitLongTail(p.longTail.value, next, attrsOut);
      }
    } else {
      NoAttributes(t, vs, next, ts);
    }
    severity := t.severity;
  }
}
