/** Decimal numerals (`strconv`) and the thousands separators of `formatNumber`. */
module Decimal {

  function DigitChar(d: nat): char
    requires d < 10
  {
    ('0' as int + d) as char
  }

  predicate IsDigit(c: char) {
    '0' <= c <= '9'
  }

  function DigitValue(c: char): nat
    requires IsDigit(c)
  {
    c as int - '0' as int
  }

  function Itoa(n: nat): (s: string)
    ensures |s| > 0
  {
    if n < 10 then [DigitChar(n)] else Itoa(n / 10) + [DigitChar(n % 10)]
  }

  predicate AllDigits(s: string) {
    forall i | 0 <= i < |s| :: IsDigit(s[i])
  }

  function Atoi(s: string): nat
    requires AllDigits(s)
  {
    if s == "" then 0 else 10 * Atoi(s[..|s| - 1]) + DigitValue(s[|s| - 1])
  }

  lemma {:induction false} AtoiItoa(n: nat)
    ensures AllDigits(Itoa(n)) && Atoi(Itoa(n)) == n
    ensures |Itoa(n)| > 1 ==> Itoa(n)[0] != '0'
    ensures n > 0 ==> Itoa(n)[0] != '0'
  {
    if n < 10 {
      assert Itoa(n)[..0] == "";
    } else {
      AtoiItoa(n / 10);
      assert Itoa(n)[..|Itoa(n)| - 1] == Itoa(n / 10);
    }
  }

  lemma {:induction false} ItoaLength(n: nat, k: nat)
    requires k > 0 && n < Power10(k)
    ensures 1 <= |Itoa(n)| <= k
  {
    if n >= 10 {
      ItoaLength(n / 10, k - 1);
    }
  }

  function Power10(k: nat): nat {
    if k == 0 then 1 else 10 * Power10(k - 1)
  }

  // ----- thousands separators

  /** Groups of three from the right. */
  function Grouped(s: string): string {
    if |s| <= 3 then s else Grouped(s[..|s| - 3]) + "," + s[|s| - 3..]
  }

  /** What the program's loop has appended after `i` digits: a comma wherever a multiple of three is left. */
  function Appended(s: string, i: nat): string
    requires i <= |s|
  {
    if i == 0 then ""
    else
      Appended(s, i - 1) + (if i > 1 && (|s| - (i - 1)) % 3 == 0 then "," else "") + [s[i - 1]]
  }

  lemma {:induction false} AppendedIsGrouped(s: string, i: nat)
    requires i <= |s| && (|s| - i) % 3 == 0
    ensures Appended(s, i) == Grouped(s[..i])
    decreases i
  {
    ModThree(|s| - i);
    if i <= 3 {
      ShortPrefix(s, i);
    } else {
      AppendedIsGrouped(s, i - 3);
      AppendedThree(s, i - 3);
      var t := s[..i];
      assert t[..|t| - 3] == s[..i - 3] && t[|t| - 3..] == s[i - 3..i];
      assert Grouped(t) == Grouped(t[..|t| - 3]) + "," + t[|t| - 3..];
    }
  }

  lemma ModThree(x: int)
    requires x % 3 == 0
    ensures (x + 1) % 3 != 0 && (x + 2) % 3 != 0 && (x + 3) % 3 == 0
  {
  }

  lemma AppendedThree(s: string, i: nat)
    requires 0 < i && i + 3 <= |s| && (|s| - i) % 3 == 0
    ensures Appended(s, i + 3) == Appended(s, i) + "," + s[i..i + 3]
  {
    assert (|s| - (i + 1)) % 3 != 0 && (|s| - (i + 2)) % 3 != 0;
    var a := Appended(s, i);
    assert Appended(s, i + 1) == a + "," + [s[i]];
    assert Appended(s, i + 2) == Appended(s, i + 1) + "" + [s[i + 1]];
    assert Appended(s, i + 3) == Appended(s, i + 2) + "" + [s[i + 2]];
    assert s[i..i + 3] == [s[i]] + [s[i + 1]] + [s[i + 2]];
  }

  lemma {:induction false} ShortPrefix(s: string, i: nat)
    requires i <= |s| && i <= 3 && (i > 1 ==> (|s| - (i - 1)) % 3 != 0) && (i > 2 ==> (|s| - (i - 2)) % 3 != 0)
    ensures Appended(s, i) == s[..i]
  {
    if i > 0 {
      ShortPrefix(s, i - 1);
    }
  }

  method FormatNumber(n: nat) returns (r: string)
    ensures r == Grouped(Itoa(n))
  {
    if n < 1000 {
      ItoaLength(n, 3) by { assert Power10(3) == 1000; }
      return Itoa(n);
    }
    var s := Itoa(n);
    r := "";
    for i := 0 to |s|
      invariant r == Appended(s, i)
    {
      if i > 0 && (|s| - i) % 3 == 0 {
        r := r + ",";
      }
      r := r + [s[i]];
    }
    AppendedIsGrouped(s, |s|);
    assert s[..|s|] == s;
  }

  function WithoutCommas(s: string): string {
    if s == "" then "" else WithoutCommas(s[..|s| - 1]) + if s[|s| - 1] == ',' then "" else [s[|s| - 1]]
  }

  lemma {:induction false} WithoutCommasAppend(a: string, b: string)
    ensures WithoutCommas(a + b) == WithoutCommas(a) + WithoutCommas(b)
  {
    if b == "" {
      assert a + b == a;
    } else {
      WithoutCommasAppend(a, b[..|b| - 1]);
      assert (a + b)[..|a + b| - 1] == a + b[..|b| - 1];
    }
  }

  lemma {:induction false} DigitsStay(s: string)
    requires AllDigits(s)
    ensures WithoutCommas(s) == s
  {
    if s != "" {
      DigitsStay(s[..|s| - 1]);
    }
  }

  lemma CommaDrops(g: string)
    ensures WithoutCommas(g + ",") == WithoutCommas(g)
  {
    var t := g + ",";
    assert t[..|t| - 1] == g && t[|t| - 1] == ',';
  }

  lemma GroupDropsComma(g: string, last: string)
    requires AllDigits(last)
    ensures WithoutCommas((g + ",") + last) == WithoutCommas(g) + last
  {
    WithoutCommasAppend(g + ",", last);
    DigitsStay(last);
    CommaDrops(g);
  }

  lemma {:induction false} UngroupGrouped(s: string)
    requires AllDigits(s)
    ensures WithoutCommas(Grouped(s)) == s
  {
    if |s| <= 3 {
      DigitsStay(s);
    } else {
      var front, last := s[..|s| - 3], s[|s| - 3..];
      UngroupGrouped(front);
      GroupDropsComma(Grouped(front), last);
      assert s == front + last;
    }
  }

  /** Deleting the commas and reading the rest as a number gives the number back, so no two numbers print alike. */
  lemma FormatRoundTrip(n: nat)
    ensures AllDigits(WithoutCommas(Grouped(Itoa(n)))) && Atoi(WithoutCommas(Grouped(Itoa(n)))) == n
  {
    AtoiItoa(n);
    UngroupGrouped(Itoa(n));
  }

  /** Commas are where, and only where, a positive multiple of four characters is left: the first group
      has one to three digits and every later one three. */
  lemma {:induction false} CommaPositions(s: string, p: nat)
    requires AllDigits(s) && p < |Grouped(s)|
    ensures Grouped(s)[p] == ',' <==> (|Grouped(s)| - p) % 4 == 0
    ensures Grouped(s)[0] != ',' && |Grouped(s)| % 4 != 0
    decreases |s|
  {
    if |s| > 3 {
      var front, last := s[..|s| - 3], s[|s| - 3..];
      var g := Grouped(front);
      CommaPositions(front, if p < |g| then p else 0);
      CommaAfter(g, last, p);
      assert Grouped(s) == g + "," + last;
    }
  }

  lemma FourMore(x: int)
    ensures (x + 4) % 4 == x % 4
  {
  }

  lemma CommaAfter(g: string, last: string, p: nat)
    requires |g| > 0 && |g| % 4 != 0 && g[0] != ',' && |last| == 3 && AllDigits(last) && p < |g| + 4
    requires p < |g| ==> (g[p] == ',' <==> (|g| - p) % 4 == 0)
    ensures var r := g + "," + last;
            && |r| == |g| + 4 && r[0] != ',' && |r| % 4 != 0
            && (r[p] == ',' <==> (|r| - p) % 4 == 0)
  {
    var r := g + "," + last;
    FourMore(|g|);
    FourMore(|g| - p);
    if p < |g| {
      assert r[p] == g[p];
    } else if p > |g| {
      assert r[p] == last[p - |g| - 1];
    }
  }
}
