/** JSON texts as sections 4, 5, 6 and 7 of RFC 8259 describe them: objects, arrays, numbers and strings,
    here without white space, with natural numbers and unescaped strings. */
module Json {
  import opened Decimal

  datatype Json =
    | JStr(s: string)
    | JNum(n: nat)
    | JBool(b: bool)
    | JArr(items: seq<Json>)
    | JObj(members: seq<Member>)

  datatype Member = Member(key: string, value: Json)

  /** Characters that a string may hold as they are. */
  predicate Unescaped(s: string) {
    forall i | 0 <= i < |s| :: s[i] >= ' ' && s[i] != '"' && s[i] != '\\'
  }

  predicate WellFormed(j: Json) {
    match j
    case JStr(s) => Unescaped(s)
    case JNum(_) => true
    case JBool(_) => true
    case JArr(items) => forall x <- items :: WellFormed(x)
    case JObj(ms) => forall m <- ms :: Unescaped(m.key) && WellFormed(m.value)
  }

  /** The text `buf` followed by the text of the value. */
  function Put(buf: string, j: Json): string
    decreases j, 1
  {
    match j
    case JStr(s) => buf + "\"" + s + "\""
    case JNum(n) => buf + Itoa(n)
    case JBool(b) => buf + if b then "true" else "false"
    case JArr(items) => PutItems(buf + "[", items) + "]"
    case JObj(ms) => PutMembers(buf + "{", ms) + "}"
  }

  /** Items separated by commas. */
  function PutItems(buf: string, items: seq<Json>): string
    decreases items, 0
  {
    if items == [] then buf
    else if |items| == 1 then Put(buf, items[0])
    else Put(PutItems(buf, items[..|items| - 1]) + ",", items[|items| - 1])
  }

  function PutMembers(buf: string, ms: seq<Member>): string
    decreases ms, 0
  {
    if ms == [] then buf
    else if |ms| == 1 then Put(buf + "\"" + ms[0].key + "\":", ms[0].value)
    else Put(PutMembers(buf, ms[..|ms| - 1]) + ",\"" + ms[|ms| - 1].key + "\":", ms[|ms| - 1].value)
  }

  ghost predicate IsJsonText(text: string) {
    exists j :: WellFormed(j) && Put("", j) == text
  }

  lemma Join(x: string, a: string, b: string)
    ensures x + a + b == x + (a + b)
  {
  }

  function PutMember(buf: string, m: Member): string {
    Put(buf + "\"" + m.key + "\":", m.value)
  }

  lemma MembersSnoc(buf: string, ms: seq<Member>, m: Member)
    requires ms != []
    ensures PutMembers(buf, ms + [m]) == Put(PutMembers(buf, ms) + ",\"" + m.key + "\":", m.value)
  {
    assert (ms + [m])[..|ms|] == ms;
  }

  /** Members one and two, and three. */
  lemma Members2(buf: string, a: Member, b: Member)
    ensures PutMembers(buf, [a, b]) == Put(PutMember(buf, a) + ",\"" + b.key + "\":", b.value)
  {
    MembersSnoc(buf, [a], b);
    assert [a] + [b] == [a, b];
  }

  lemma Members3(buf: string, a: Member, b: Member, c: Member)
    ensures PutMembers(buf, [a, b, c]) == Put(PutMembers(buf, [a, b]) + ",\"" + c.key + "\":", c.value)
  {
    MembersSnoc(buf, [a, b], c);
    assert [a, b] + [c] == [a, b, c];
  }

  /** One more item, behind a comma unless it is the first. */
  lemma ItemsSnoc(buf: string, items: seq<Json>, j: Json)
    ensures PutItems(buf, items + [j]) == Put(PutItems(buf, items) + (if items == [] then "" else ","), j)
  {
    assert (items + [j])[..|items|] == items;
    if items == [] {
      assert buf + "" == buf;
    }
  }
}
