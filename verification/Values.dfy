/** The dynamically typed values that generators produce, and their texts. */
module Values {
  import opened Decimal

  /** `Route` is the URL that prints as its body but is stored as its template. */
  datatype Value =
    | Nil
    | Int(i: int)
    | Int64(i64: int)
    | UInt64(u: nat)
    | Float(f: real)
    | Str(s: string)
    | Bool(b: bool)
    | Route(body: string, template: string)
    | List(elems: seq<Value>)

  /** `fmt.Sprint` and `strconv.Quote`, which stay open. */
  datatype Library = Library(sprint: Value -> string, quote: string -> string)

  function HexChar(d: nat): char
    requires d < 16
  {
    "0123456789abcdef"[d]
  }

  function Hex(n: nat): (s: string)
    ensures |s| > 0
  {
    if n < 16 then [HexChar(n)] else Hex(n / 16) + [HexChar(n % 16)]
  }

  function IntText(n: int): string {
    if n < 0 then "-" + Itoa(-n) else Itoa(n)
  }

  function HexText(n: int): string {
    if n < 0 then "-" + Hex(-n) else Hex(n)
  }

  // ----- reading numerals back

  predicate IsHexDigit(c: char) {
    '0' <= c <= '9' || 'a' <= c <= 'f'
  }

  function HexDigitValue(c: char): (d: nat)
    requires IsHexDigit(c)
    ensures d < 16
  {
    if c <= '9' then c as int - '0' as int else 10 + (c as int - 'a' as int)
  }

  predicate AllHexDigits(s: string) {
    forall i | 0 <= i < |s| :: IsHexDigit(s[i])
  }

  function ReadHex(s: string): nat
    requires AllHexDigits(s)
  {
    if s == "" then 0 else 16 * ReadHex(s[..|s| - 1]) + HexDigitValue(s[|s| - 1])
  }

  lemma HexDigitReadsBack(d: nat)
    requires d < 16
    ensures IsHexDigit(HexChar(d)) && HexDigitValue(HexChar(d)) == d
    ensures HexChar(d) == '0' <==> d == 0
  {
  }

  lemma ReadHexSnoc(s: string, c: char)
    requires AllHexDigits(s) && IsHexDigit(c)
    ensures AllHexDigits(s + [c]) && ReadHex(s + [c]) == 16 * ReadHex(s) + HexDigitValue(c)
  {
    assert (s + [c])[..|s|] == s;
  }

  lemma {:induction false} HexReadsBack(n: nat)
    ensures AllHexDigits(Hex(n)) && ReadHex(Hex(n)) == n
    ensures n > 0 ==> Hex(n)[0] != '0'
  {
    HexDigitReadsBack(n % 16);
    if n < 16 {
      ReadHexSnoc("", HexChar(n));
    } else {
      HexReadsBack(n / 16);
      ReadHexSnoc(Hex(n / 16), HexChar(n % 16));
    }
  }

  /** `s` is the numeral of `n` in base ten: its digits, none of them a leading zero, after a minus sign if
      `n` is negative. */
  predicate DecimalOf(s: string, n: int) {
    if n < 0 then |s| > 1 && s[0] == '-' && s[1] != '0' && AllDigits(s[1..]) && Atoi(s[1..]) == -n
    else |s| > 0 && (n > 0 ==> s[0] != '0') && AllDigits(s) && Atoi(s) == n
  }

  /** Likewise in base sixteen. */
  predicate HexadecimalOf(s: string, n: int) {
    if n < 0 then |s| > 1 && s[0] == '-' && s[1] != '0' && AllHexDigits(s[1..]) && ReadHex(s[1..]) == -n
    else |s| > 0 && (n > 0 ==> s[0] != '0') && AllHexDigits(s) && ReadHex(s) == n
  }

  lemma NumeralsReadBack(n: int)
    ensures DecimalOf(IntText(n), n) && HexadecimalOf(HexText(n), n)
  {
    var m := if n < 0 then -n else n;
    AtoiItoa(m);
    HexReadsBack(m);
    assert n < 0 ==> IntText(n)[1..] == Itoa(m) && HexText(n)[1..] == Hex(m);
  }

  /** What `%s` and `%v` print. */
  function AnyStr(lib: Library, v: Value): string {
    match v
    case Str(s) => s
    case Route(body, _) => body
    case Int(i) => IntText(i)
    case _ => lib.sprint(v)
  }

  /** What `%d` prints. */
  function AnyInt(lib: Library, v: Value): string {
    match v
    case Int(i) => IntText(i)
    case Int64(i) => IntText(i)
    case Str(s) => s
    case _ => lib.sprint(v)
  }

  /** What `%x` prints: `fmt` would print a string in hexadecimal, the program prints it as it is. */
  function AnyHex(lib: Library, v: Value): string {
    match v
    case Int(i) => HexText(i)
    case Int64(i) => HexText(i)
    case UInt64(u) => HexText(u)
    case _ => lib.sprint(v)
  }

  /** What `%q` quotes. */
  function QuotedStr(lib: Library, v: Value): string {
    match v
    case Str(s) => s
    case Route(body, _) => body
    case _ => lib.sprint(v)
  }

  /** A Go map of attributes, which callers share and reuse. */
  class AttrMap {
    var fields: map<string, Value>

    constructor ()
      ensures fields == map[]
    {
      fields := map[];
    }

    method Clear()
      modifies this
      ensures fields == map[]
    {
      while fields != map[]
        decreases |fields|
      {
        var k :| k in fields;
        fields := fields - {k};
      }
    }

    method Put(key: string, v: Value)
      modifies this
      ensures fields == old(fields)[key := v]
    {
      fields := fields[key := v];
    }
  }
}
