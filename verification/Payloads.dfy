/** Length-driven JSON payloads (`buildLargeJSONPayload`).

The builder decides whether an item needs a comma before it by the length of the text so far. */
module Payloads {
  import opened Rand
  import opened Decimal
  import opened Json

  const OPENING := "{\"items\":["

  function Product(id: string, n: nat, price: nat): Json {
    JObj([Member("id", JStr(id)), Member("name", JStr("product-" + Itoa(n))), Member("price", JNum(price))])
  }

  predicate HexId(id: string) {
    |id| == 8 && forall i | 0 <= i < 8 :: id[i] in "0123456789abcdef"
  }

  lemma DigitsUnescaped(s: string)
    requires AllDigits(s)
    ensures Unescaped(s)
  {
  }

  lemma NameUnescaped(n: nat)
    ensures Unescaped("product-" + Itoa(n))
  {
    AtoiItoa(n);
    DigitsUnescaped(Itoa(n));
    assert Unescaped("product-");
  }

  lemma HexIdUnescaped(id: string)
    requires HexId(id)
    ensures Unescaped(id)
  {
    assert forall c | c in "0123456789abcdef" :: c >= ' ' && c != '"' && c != '\\';
  }

  lemma KeysUnescaped()
    ensures Unescaped("id") && Unescaped("name") && Unescaped("price") && Unescaped("items")
  {
  }

  lemma ProductWellFormed(id: string, n: nat, price: nat)
    requires HexId(id)
    ensures WellFormed(Product(id, n, price))
  {
    NameUnescaped(n);
    HexIdUnescaped(id);
    KeysUnescaped();
    var ms := Product(id, n, price).members;
    forall m | m in ms
      ensures Unescaped(m.key) && WellFormed(m.value)
    {
      assert m == ms[0] || m == ms[1] || m == ms[2];
    }
  }

  lemma IdText(b: string, id: string)
    ensures PutMember(b + "{", Member("id", JStr(id))) == b + "{\"id\":\"" + id + "\""
  {
    assert b + "{" + "\"" + "id" + "\":" + "\"" == b + "{\"id\":\"";
  }

  lemma NameText(b: string, n: nat)
    ensures Put(b + "\"" + ",\"" + "name" + "\":", JStr("product-" + Itoa(n)))
         == b + "\",\"name\":\"product-" + Itoa(n) + "\""
  {
    assert b + "\"" + ",\"" + "name" + "\":" + "\"" + "product-" == b + "\",\"name\":\"product-";
    Join(b + "\"" + ",\"" + "name" + "\":" + "\"", "product-", Itoa(n));
  }

  lemma PriceText(b: string, price: nat)
    ensures Put(b + "\"" + ",\"" + "price" + "\":", JNum(price)) + "}" == b + "\",\"price\":" + Itoa(price) + "}"
  {
    assert b + "\"" + ",\"" + "price" + "\":" == b + "\",\"price\":";
  }

  /** What the builder writes is the text of the item. */
  lemma ProductText(b: string, id: string, n: nat, price: nat)
    ensures b + "{\"id\":\"" + id + "\",\"name\":\"product-" + Itoa(n) + "\",\"price\":" + Itoa(price) + "}"
         == Put(b, Product(id, n, price))
  {
    var ms := Product(id, n, price).members;
    Members3(b + "{", ms[0], ms[1], ms[2]);
    Members2(b + "{", ms[0], ms[1]);
    IdText(b, id);
    var b1 := b + "{\"id\":\"" + id;
    NameText(b1, n);
    PriceText(b1 + "\",\"name\":\"product-" + Itoa(n), price);
  }

  /** Bounds of the length of one item and the comma before it. */
  lemma ItemLength(id: string, n: nat, price: nat)
    requires |id| == 8 && n < 10000 && 10 <= price < 510
    ensures var item := "{\"id\":\"" + id + "\",\"name\":\"product-" + Itoa(n) + "\",\"price\":" + Itoa(price) + "}";
            46 <= |item| <= 51
  {
    assert Power10(4) == 10000 && Power10(3) == 1000;
    ItoaLength(n, 4);
    ItoaLength(price, 3);
    assert |Itoa(price)| >= 2;
  }

  /** The text of a payload with the given items, but for its end. */
  function Payload(items: seq<Json>): string {
    PutItems(OPENING, items)
  }

  ghost predicate ItemsOk(items: seq<Json>) {
    forall i | 0 <= i < |items| :: WellFormed(items[i])
  }

  lemma PayloadIsJson(items: seq<Json>)
    requires ItemsOk(items)
    ensures IsJsonText(Payload(items) + "]}")
  {
    var m := Member("items", JArr(items));
    var j := JObj([m]);
    KeysUnescaped();
    assert WellFormed(j.members[0].value);
    assert "" + "{" + "\"" + "items" + "\":" + "[" == OPENING;
    Join(Payload(items), "]", "}");
    assert "]" + "}" == "]}";
    var start := "" + "{" + "\"" + "items" + "\":";
    assert Put(start, JArr(items)) == Payload(items) + "]";
    assert PutMembers("" + "{", [m]) == Put(start, JArr(items));
    assert Put("", j) == PutMembers("" + "{", [m]) + "}";
  }

  // ----- the items that the draws give

  function AfterDigits(rng: Rng, n: nat): Rng {
    rng.(calls := rng.calls + seq(n, _ => CallIntn(16)))
  }

  lemma NextDigit(rng: Rng, n: nat)
    ensures AfterDigits(rng, n).Intn(16).1 == AfterDigits(rng, n + 1)
  {
    assert rng.calls + seq(n, _ => CallIntn(16)) + [CallIntn(16)] == rng.calls + seq(n + 1, _ => CallIntn(16));
  }

  function HexDigit(d: nat): char
    requires d < 16
  {
    "0123456789abcdef"[d]
  }

  function Id(rng: Rng): string {
    seq(8, i requires 0 <= i => HexDigit(AfterDigits(rng, i).Intn(16).0))
  }

  /** Eight digits, a number and a price. */
  function Drawn(rng: Rng): (Json, Rng) {
    var (n, r1) := AfterDigits(rng, 8).Intn(10000);
    var (p, r2) := r1.Intn(500);
    (Product(Id(rng), n, p + 10), r2)
  }

  /** The first `k` items, each drawn where the one before left the generator. */
  function DrawnItems(rng: Rng, k: nat): (r: (seq<Json>, Rng))
    ensures |r.0| == k && |r.1.calls| == |rng.calls| + 10 * k
  {
    if k == 0 then ([], rng)
    else
      var (items, r) := DrawnItems(rng, k - 1);
      (items + [Drawn(r).0], Drawn(r).1)
  }

  // ----- the builder

  /** The identifier bytes are overwritten in place, one draw each. */
  method FillId(rng: Rng, id: array<char>) returns (next: Rng)
    requires id.Length == 8
    modifies id
    ensures id[..] == Id(rng) && HexId(id[..]) && next == AfterDigits(rng, 8)
  {
    next := rng;
    assert AfterDigits(rng, 0).calls == rng.calls;
    for i := 0 to 8
      invariant next == AfterDigits(rng, i)
      invariant forall k | 0 <= k < i :: id[k] == HexDigit(AfterDigits(rng, k).Intn(16).0)
      invariant forall k | 0 <= k < i :: id[k] in "0123456789abcdef"
    {
      NextDigit(rng, i);
      var (d, r) := next.Intn(16);
      id[i] := HexDigit(d);
      next := r;
    }
  }

  /** Appends one item to the text. */
  method AppendItem(rng: Rng, b: string, id: array<char>) returns (text: string, next: Rng)
    requires id.Length == 8
    modifies id
    ensures (var (item, r) := Drawn(rng); text == Put(b, item) && WellFormed(item) && next == r)
    ensures |b| + 46 <= |text| <= |b| + 51
  {
    next := FillId(rng, id);
    var (n, r1) := next.Intn(10000);
    var (p, r2) := r1.Intn(500);
    next := r2;
    ProductText(b, id[..], n, p + 10);
    ProductWellFormed(id[..], n, p + 10);
    ItemLength(id[..], n, p + 10);
    text := b + "{\"id\":\"" + id[..] + "\",\"name\":\"product-" + Itoa(n) + "\",\"price\":" + Itoa(p + 10) + "}";
  }

  /** For every stream of draws and every target, the text is the JSON text of the items drawn, `k` of them, ten
      draws each; it reaches the target and overshoots it by no more than an item and the end: the length
      exceeds 20 exactly when an item has been written. */
  method BuildLargeJSONPayload(rng: Rng, targetLen: int) returns (text: string, next: Rng, ghost k: nat)
    requires targetLen + 256 >= 0
    ensures IsJsonText(text)
    ensures text == Payload(DrawnItems(rng, k).0) + "]}" && next == DrawnItems(rng, k).1
    ensures targetLen <= 10 ==> text == OPENING + "]}"
    ensures targetLen > 10 ==> targetLen + 2 <= |text| <= targetLen + 53
  {
    var b := OPENING;
    assert |OPENING| == 10;
    var id := new char[8];
    next := rng;
    k := 0;
    ghost var items: seq<Json> := [];
    while |b| < targetLen
      invariant (items, next) == DrawnItems(rng, k) && ItemsOk(items) && b == Payload(items)
      invariant k == 0 ==> b == OPENING
      invariant k > 0 ==> targetLen > 10 && 20 < |b| <= targetLen + 51
      decreases targetLen - |b|
    {
      if |b| > 20 {
        b := b + ",";
      }
      ghost var j := Drawn(next).0;
      b, next := AppendItem(next, b, id);
      ItemsSnoc(OPENING, items, j);
      items := items + [j];
      k := k + 1;
    }
    PayloadIsJson(items);
    text := b + "]}";
  }
}
