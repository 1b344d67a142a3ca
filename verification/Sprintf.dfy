/** The fast formatter `sprintfSimple` against a parse-then-render reading of its format strings. */
module Sprintf {
  import opened Records
  import opened Values

  // ----- parse, then render

  datatype Verb = StrVerb | IntVerb | HexVerb | QuoteVerb

  datatype Segment = Literal(c: char) | Argument(verb: Verb)

  function VerbOf(c: char): Option<Verb> {
    match c
    case 's' => Some(StrVerb)
    case 'v' => Some(StrVerb)
    case 'd' => Some(IntVerb)
    case 'x' => Some(HexVerb)
    case 'q' => Some(QuoteVerb)
    case _ => None
  }

  /** What a character after a percent sign stands for: a verb takes an argument, a percent sign stands
      for itself, and anything else keeps its percent sign. */
  function Escaped(c: char): seq<Segment> {
    if VerbOf(c).Some? then [Argument(VerbOf(c).value)]
    else if c == '%' then [Literal('%')]
    else [Literal('%'), Literal(c)]
  }

  function Parse(format: string): seq<Segment> {
    if format == "" then []
    else if format[0] != '%' || |format| == 1 then [Literal(format[0])] + Parse(format[1..])
    else Escaped(format[1]) + Parse(format[2..])
  }

  function Arity(segs: seq<Segment>): nat {
    if segs == [] then 0 else (if segs[0].Argument? then 1 else 0) + Arity(segs[1..])
  }

  function Show(lib: Library, verb: Verb, v: Value): string {
    match verb
    case StrVerb => AnyStr(lib, v)
    case IntVerb => AnyInt(lib, v)
    case HexVerb => AnyHex(lib, v)
    case QuoteVerb => lib.quote(QuotedStr(lib, v))
  }

  /** The text of the segments, or nothing if the arguments run out, where the program panics. */
  function Render(lib: Library, segs: seq<Segment>, args: seq<Value>): Option<string> {
    if segs == [] then Some("")
    else
      match segs[0]
      case Literal(c) =>
        (match Render(lib, segs[1..], args)
         case None => None
         case Some(rest) => Some([c] + rest))
      case Argument(verb) =>
        if args == [] then None
        else
          match Render(lib, segs[1..], args[1..])
          case None => None
          case Some(rest) => Some(Show(lib, verb, args[0]) + rest)
  }

  function Format(lib: Library, format: string, args: seq<Value>): Option<string> {
    Render(lib, Parse(format), args)
  }

  /** Formatting fails exactly when there are fewer arguments than verbs. */
  lemma {:induction false} FailsIffShort(lib: Library, segs: seq<Segment>, args: seq<Value>)
    ensures Render(lib, segs, args).None? <==> |args| < Arity(segs)
    decreases |segs|
  {
    if segs != [] {
      FailsIffShort(lib, segs[1..], if segs[0].Argument? && args != [] then args[1..] else args);
    }
  }

  // ----- the loop

  /** `text` in front of a rendering, if there is one. */
  function After(text: string, rest: Option<string>): Option<string> {
    if rest.None? then None else Some(text + rest.value)
  }

  lemma RenderLiteral(lib: Library, prefix: string, c: char, segs: seq<Segment>, args: seq<Value>)
    requires segs != [] && segs[0] == Literal(c)
    ensures After(prefix, Render(lib, segs, args)) == After(prefix + [c], Render(lib, segs[1..], args))
  {
    match Render(lib, segs[1..], args)
    case Some(rest) => AppendAfter(prefix, [c], rest);
    case None =>
  }

  lemma RenderArgument(lib: Library, prefix: string, verb: Verb, segs: seq<Segment>, args: seq<Value>)
    requires segs != [] && segs[0] == Argument(verb)
    ensures args == [] ==> Render(lib, segs, args).None?
    ensures args != [] ==>
              After(prefix, Render(lib, segs, args))
              == After(prefix + Show(lib, verb, args[0]), Render(lib, segs[1..], args[1..]))
  {
    if args != [] {
      match Render(lib, segs[1..], args[1..])
      case Some(rest) => AppendAfter(prefix, Show(lib, verb, args[0]), rest);
      case None =>
    }
  }

  lemma AppendAfter(a: string, b: string, c: string)
    ensures a + (b + c) == (a + b) + c
  {
  }

  /** The result depends on the format and the arguments alone, whatever the reused buffer held.  The
      arguments are read in order, and indexing them fails, here with no result, exactly when there are fewer
      than verbs. */
  method SprintfSimple(lib: Library, bufIn: string, format: string, args: seq<Value>)
    returns (text: Option<string>, buf: string)
    ensures text == Format(lib, format, args)
    ensures text.None? <==> |args| < Arity(Parse(format))
    ensures text.Some? ==> buf == text.value
  {
    buf := bufIn[..0];
    var argIdx := 0;
    var i := 0;
    FailsIffShort(lib, Parse(format), args);
    assert format[0..] == format && args[0..] == args;
    assert Format(lib, format, args).Some? ==> buf + Format(lib, format, args).value == Format(lib, format, args).value;
    while i < |format|
      invariant i <= |format| && argIdx <= |args|
      invariant Format(lib, format, args) == After(buf, Render(lib, Parse(format[i..]), args[argIdx..]))
    {
      var here := format[i..];
      var segs := Parse(here);
      assert here[1..] == format[i + 1..];
      if format[i] != '%' || i + 1 >= |format| {
        RenderLiteral(lib, buf, format[i], segs, args[argIdx..]);
        assert segs[1..] == Parse(here[1..]);
        buf := buf + [format[i]];
        i := i + 1;
        continue;
      }
      i := i + 1;
      assert here[2..] == format[i + 1..];
      var c := format[i];
      if VerbOf(c).Some? {
        RenderArgument(lib, buf, VerbOf(c).value, segs, args[argIdx..]);
        assert segs[1..] == Parse(here[2..]);
        if argIdx >= |args| {
          return None, buf;
        }
        assert args[argIdx..][1..] == args[argIdx + 1..];
        buf := buf + Show(lib, VerbOf(c).value, args[argIdx]);
        argIdx := argIdx + 1;
      } else if c == '%' {
        RenderLiteral(lib, buf, '%', segs, args[argIdx..]);
        assert segs[1..] == Parse(here[2..]);
        buf := buf + "%";
      } else {
        RenderLiteral(lib, buf, '%', segs, args[argIdx..]);
        assert segs[1..] == [Literal(c)] + Parse(here[2..]);
        RenderLiteral(lib, buf + "%", c, segs[1..], args[argIdx..]);
        assert segs[1..][1..] == Parse(here[2..]);
        buf := buf + "%" + [c];
      }
      i := i + 1;
    }
    assert format[i..] == "" && buf + "" == buf;
    text := Some(buf);
  }

  // ----- laws of formats

  /** A percent sign at the end of the text that nothing follows. */
  predicate Dangling(format: string) {
    if format == "" then false
    else if format[0] != '%' then Dangling(format[1..])
    else if |format| == 1 then true
    else Dangling(format[2..])
  }

  /** A percent sign put in front of the text stays on its own. */
  predicate Separable(text: string) {
    if text == "" then true
    else if text[0] == '%' then |text| > 1 && text[1] == '%' && Separable(text[2..])
    else VerbOf(text[0]).None?
  }

  lemma {:induction false} PercentBefore(b: string)
    ensures Parse("%" + b) == [Literal('%')] + Parse(b) <==> Separable(b)
    decreases |b|
  {
    if b == "" {
      assert "%" + b == "%" && "%"[1..] == "";
    } else {
      var ab := "%" + b;
      assert ab[2..] == b[1..];
      assert Parse(ab) == Escaped(b[0]) + Parse(b[1..]);
      if b[0] != '%' {
        if VerbOf(b[0]).Some? {
          assert Parse(ab)[0].Argument?;
        } else {
          assert Parse(ab) == [Literal('%')] + ([Literal(b[0])] + Parse(b[1..]));
        }
      } else if |b| == 1 {
        assert |Parse(b[1..])| == 0;
      } else if b[1] == '%' {
        PercentBefore(b[2..]);
        assert b[1..] == "%" + b[2..];
        Prefixed([Literal('%')], Parse(b[1..]), [Literal('%')], Parse(b[2..]));
      } else {
        assert b[1..][1..] == b[2..];
        assert Parse(ab)[1] == Literal(b[1]);
        assert Parse(b)[0] == Escaped(b[1])[0] != Literal(b[1]);
        assert ([Literal('%')] + Parse(b))[1] == Parse(b)[0];
      }
    }
  }

  lemma Prefixed<T>(p: seq<T>, ab: seq<T>, a: seq<T>, b: seq<T>)
    ensures p + ab == (p + a) + b <==> ab == a + b
    ensures p + ab == p + (a + b) <==> ab == a + b
  {
    assert (p + a) + b == p + (a + b);
    assert (p + ab)[|p|..] == ab && (p + (a + b))[|p|..] == a + b;
  }

  /** Parsing distributes over concatenation, except where a percent sign that dangles at the end of the
      first part is completed by the second. */
  lemma {:induction false} ParseAppend(a: string, b: string)
    ensures Parse(a + b) == Parse(a) + Parse(b) <==> (Dangling(a) ==> Separable(b))
    decreases |a|
  {
    if a == "" {
      assert a + b == b;
    } else if a[0] != '%' {
      assert (a + b)[1..] == a[1..] + b;
      ParseAppend(a[1..], b);
      Prefixed([Literal(a[0])], Parse(a[1..] + b), Parse(a[1..]), Parse(b));
    } else if |a| == 1 {
      assert a == "%" && a[1..] == "";
      PercentBefore(b);
    } else {
      assert (a + b)[2..] == a[2..] + b;
      ParseAppend(a[2..], b);
      Prefixed(Escaped(a[1]), Parse(a[2..] + b), Parse(a[2..]), Parse(b));
    }
  }

  lemma {:induction false} RenderAppend(lib: Library, p: seq<Segment>, q: seq<Segment>, xs: seq<Value>, ys: seq<Value>)
    requires |xs| == Arity(p) && Arity(q) <= |ys|
    ensures Render(lib, p, xs).Some? && Render(lib, q, ys).Some?
    ensures Render(lib, p + q, xs + ys) == Some(Render(lib, p, xs).value + Render(lib, q, ys).value)
    decreases |p|
  {
    FailsIffShort(lib, p, xs);
    FailsIffShort(lib, q, ys);
    if p == [] {
      assert p + q == q && xs + ys == ys;
      assert "" + Render(lib, q, ys).value == Render(lib, q, ys).value;
    } else {
      assert (p + q)[1..] == p[1..] + q;
      if p[0].Argument? {
        assert (xs + ys)[1..] == xs[1..] + ys;
        RenderAppend(lib, p[1..], q, xs[1..], ys);
        AppendAfter(Show(lib, p[0].verb, xs[0]), Render(lib, p[1..], xs[1..]).value, Render(lib, q, ys).value);
      } else {
        RenderAppend(lib, p[1..], q, xs, ys);
        AppendAfter([p[0].c], Render(lib, p[1..], xs).value, Render(lib, q, ys).value);
      }
    }
  }

  /** Exactly as many arguments as there are verbs are consumed: the others make no difference. */
  lemma ConsumesItsArity(lib: Library, format: string, args: seq<Value>)
    requires Arity(Parse(format)) <= |args|
    ensures Format(lib, format, args) == Format(lib, format, args[..Arity(Parse(format))])
  {
    var segs, n := Parse(format), Arity(Parse(format));
    RenderAppend(lib, segs, [], args[..n], args[n..]);
    assert segs + [] == segs && args[..n] + args[n..] == args;
    var text := Render(lib, segs, args[..n]).value;
    assert text + "" == text;
  }

  /** Formats that do not end in the middle of a verb compose. */
  lemma FormatAppend(lib: Library, a: string, b: string, xs: seq<Value>, ys: seq<Value>)
    requires !Dangling(a) && |xs| == Arity(Parse(a)) && Arity(Parse(b)) <= |ys|
    ensures Format(lib, a, xs).Some? && Format(lib, b, ys).Some?
    ensures Format(lib, a + b, xs + ys) == Some(Format(lib, a, xs).value + Format(lib, b, ys).value)
  {
    ParseAppend(a, b);
    RenderAppend(lib, Parse(a), Parse(b), xs, ys);
  }

  function Doubled(text: string): string {
    if text == "" then "" else (if text[0] == '%' then "%%" else [text[0]]) + Doubled(text[1..])
  }

  /** Any text, with its percent signs doubled, formats to itself. */
  lemma {:induction false} DoublingEscapes(lib: Library, text: string, args: seq<Value>)
    ensures Format(lib, Doubled(text), args) == Some(text)
  {
    if text != "" {
      DoublingEscapes(lib, text[1..], args);
      var d := Doubled(text);
      if text[0] == '%' {
        assert d[2..] == Doubled(text[1..]);
        assert Parse(d) == [Literal('%')] + Parse(Doubled(text[1..]));
      } else {
        assert d[1..] == Doubled(text[1..]);
        assert Parse(d) == [Literal(text[0])] + Parse(Doubled(text[1..]));
      }
      assert Parse(d)[1..] == Parse(Doubled(text[1..]));
      assert text == [text[0]] + text[1..];
    }
  }

  // ----- what the verbs print

  /** What a text says of the value that a verb printed. */
  ghost predicate Prints(lib: Library, verb: char, v: Value, text: string) {
    match (verb, v)
    case ('d', Int(i)) => DecimalOf(text, i)
    case ('d', Int64(i)) => DecimalOf(text, i)
    case ('d', Str(s)) => text == s
    case ('x', Int(i)) => HexadecimalOf(text, i)
    case ('x', Int64(i)) => HexadecimalOf(text, i)
    case ('x', UInt64(u)) => HexadecimalOf(text, u)
    case ('q', Str(s)) => text == lib.quote(s)
    case ('q', Route(body, _)) => text == lib.quote(body)
    case ('q', _) => text == lib.quote(lib.sprint(v))
    case ('s', Str(s)) => text == s
    case ('s', Route(body, _)) => text == body
    case ('s', Int(i)) => DecimalOf(text, i)
    case ('v', Str(s)) => text == s
    case ('v', Route(body, _)) => text == body
    case ('v', Int(i)) => DecimalOf(text, i)
    case _ => text == lib.sprint(v)
  }

  predicate IsVerb(c: char) {
    c == 's' || c == 'v' || c == 'd' || c == 'x' || c == 'q'
  }

  lemma OneVerb(lib: Library, verb: char, v: Value) returns (text: string)
    requires IsVerb(verb)
    ensures !Dangling(['%', verb]) && Arity(Parse(['%', verb])) == 1
    ensures Format(lib, ['%', verb], [v]) == Some(text) && Prints(lib, verb, v, text)
  {
    var format := ['%', verb];
    assert format[2..] == "" && Parse(format) == [Argument(VerbOf(verb).value)] + [];
    assert Parse(format)[1..] == [] && [v][1..] == [] && Render(lib, [], []) == Some("");
    text := Show(lib, VerbOf(verb).value, v);
    assert text + "" == text;
    ShowPrints(lib, verb, v);
  }

  lemma ShowPrints(lib: Library, verb: char, v: Value)
    requires IsVerb(verb)
    ensures Prints(lib, verb, v, Show(lib, VerbOf(verb).value, v))
  {
    if v.Int? {
      NumeralsReadBack(v.i);
    } else if v.Int64? {
      NumeralsReadBack(v.i64);
    } else if v.UInt64? {
      NumeralsReadBack(v.u);
    }
  }

  /** Wherever a verb stands in a format, its argument is the one after those of the verbs before it, and its text
      stands between those of the two parts: integers as numerals that read back as they are, in base ten or
      sixteen, strings and bodies of routes as they are, or quoted. */
  lemma VerbPrints(
      lib: Library, a: string, verb: char, b: string, xs: seq<Value>, v: Value, ys: seq<Value>)
    returns (text: string)
    requires IsVerb(verb) && !Dangling(a) && |xs| == Arity(Parse(a)) && Arity(Parse(b)) <= |ys|
    ensures Prints(lib, verb, v, text)
    ensures Format(lib, a, xs).Some? && Format(lib, b, ys).Some?
    ensures Format(lib, a + (['%', verb] + b), xs + ([v] + ys))
         == Some(Format(lib, a, xs).value + (text + Format(lib, b, ys).value))
  {
    text := OneVerb(lib, verb, v);
    FormatAppend(lib, ['%', verb], b, [v], ys);
    ParseAppend(['%', verb], b);
    ArityAppend(Parse(['%', verb]), Parse(b));
    FormatAppend(lib, a, ['%', verb] + b, xs, [v] + ys);
  }

  lemma {:induction false} ArityAppend(p: seq<Segment>, q: seq<Segment>)
    ensures Arity(p + q) == Arity(p) + Arity(q)
  {
    if p == [] {
      assert p + q == q;
    } else {
      assert (p + q)[1..] == p[1..] + q;
      ArityAppend(p[1..], q);
    }
  }
}
