/** The JSON branch of `buildLargeErrorMessage`: an error response with a list of failed shards.

A comma goes before an item when the text is longer than 300 bytes.  That works because whatever causes
and reasons are drawn, the text is at most 289 long before the first item and at least 302 after it. */
module ErrorPayloads {
  import opened Rand
  import opened Values
  import opened Decimal
  import opened Json

  const CAUSES := [
    "search_phase_execution_exception", "index_not_found_exception",
    "mapper_parsing_exception", "resource_already_exists_exception"]

  const REASONS := [
    "all shards failed", "no such index", "failed to parse field",
    "resource already exists", DATA_TOO_LARGE]

  const DATA_TOO_LARGE := "circuit breaking exception: " + "[request] Data too large"

  const ROOT_CAUSE := "{\"error\":{\"root_cause\":[{\"type\":\""
  const REASON := "\",\"reason\":\""
  const TYPE := "\"}],\"type\":\""
  const PHASE := "\",\"phase\":\"query\""
  const GROUPED := ",\"grouped\":true"
  const FAILED := ",\"failed_shards\":["
  const SHARDS := PHASE + GROUPED + FAILED
  const ENDING := "]},\"status\":500}"

  predicate Cause(c: string) {
    24 <= |c| <= 33 && Unescaped(c)
  }

  predicate Reason(r: string) {
    13 <= |r| <= 52 && Unescaped(r)
  }

  lemma SearchCause()
    ensures Cause("search_phase_execution_exception")
  {
  }

  lemma ResourceCause()
    ensures Cause("resource_already_exists_exception")
  {
  }

  lemma CausesOk(i: nat)
    requires i < |CAUSES|
    ensures Cause(CAUSES[i])
  {
    assert |CAUSES| == 4;
    SearchCause();
    ResourceCause();
    assert Cause("index_not_found_exception");
    assert Cause("mapper_parsing_exception");
  }

  lemma LongReason()
    ensures Reason(DATA_TOO_LARGE)
  {
    UnescapedAppend("circuit breaking exception: ", "[request] Data too large");
  }

  lemma UnescapedAppend(a: string, b: string)
    requires Unescaped(a) && Unescaped(b)
    ensures Unescaped(a + b)
  {
  }

  lemma ReasonsOk(i: nat)
    requires i < |REASONS|
    ensures Reason(REASONS[i])
  {
    assert |REASONS| == 5;
    assert Reason("all shards failed");
    assert Reason("no such index");
    assert Reason("failed to parse field");
    assert Reason("resource already exists");
    LongReason();
  }

  // ----- values

  function Failure(c: string, r: string): Json {
    JObj([Member("type", JStr(c)), Member("reason", JStr(r))])
  }

  function Shard(shard: nat, index: nat, node: string, c: string, r: string): Json {
    JObj([Member("shard", JNum(shard)), Member("index", JStr("logs-" + Itoa(index))),
          Member("node", JStr(node)), Member("reason", Failure(c, r))])
  }

  function ErrorBody(c1: string, r1: string, c2: string, r2: string, items: seq<Json>): Json {
    JObj([Member("root_cause", JArr([Failure(c1, r1)])), Member("type", JStr(c2)), Member("reason", JStr(r2)),
          Member("phase", JStr("query")), Member("grouped", JBool(true)), Member("failed_shards", JArr(items))])
  }

  function ErrorResponse(c1: string, r1: string, c2: string, r2: string, items: seq<Json>): Json {
    JObj([Member("error", ErrorBody(c1, r1, c2, r2, items)), Member("status", JNum(500))])
  }

  /** What is written before the first item. */
  function Opening(c1: string, r1: string, c2: string, r2: string): string {
    ROOT_CAUSE + c1 + REASON + r1 + TYPE + c2 + REASON + r2 + SHARDS
  }

  lemma OpeningLength(c1: string, r1: string, c2: string, r2: string)
    requires Cause(c1) && Reason(r1) && Cause(c2) && Reason(r2)
    ensures 193 <= |Opening(c1, r1, c2, r2)| <= 289
  {
    assert |ROOT_CAUSE| == 33 && |REASON| == 12 && |TYPE| == 12 && |SHARDS| == 50;
  }

  /** What is written for one item. */
  function ShardText(shard: nat, index: nat, node: string, c: string, r: string): string {
    "{\"shard\":" + Itoa(shard) + ",\"index\":\"logs-" + Itoa(index) + "\",\"node\":\"" + node
    + "\",\"reason\":{\"type\":\"" + c + "\",\"reason\":\"" + r + "\"}}"
  }

  lemma ShardLength(shard: nat, index: nat, node: string, c: string, r: string)
    requires shard < 10 && index < 100 && 1 <= |node| <= 12 && Cause(c) && Reason(r)
    ensures 109 <= |ShardText(shard, index, node, c, r)| <= 169
  {
    assert Power10(2) == 100;
    ItoaLength(index, 2);
  }

  lemma {:induction false} HexLength(n: nat, k: nat)
    requires k > 0 && n < Power16(k)
    ensures 1 <= |Hex(n)| <= k && Unescaped(Hex(n))
  {
    if n >= 16 {
      HexLength(n / 16, k - 1);
    }
  }

  function Power16(k: nat): nat {
    if k == 0 then 1 else 16 * Power16(k - 1)
  }

  // ----- the texts are those of the values

  lemma FailureText(b: string, c: string, r: string)
    ensures Put(b, Failure(c, r)) == b + "{\"type\":\"" + c + "\",\"reason\":\"" + r + "\"}"
  {
    var ms := Failure(c, r).members;
    Members2(b + "{", ms[0], ms[1]);
    assert b + "{" + "\"" + "type" + "\":" + "\"" == b + "{\"type\":\"";
    var b1 := b + "{\"type\":\"" + c;
    assert b1 + "\"" + ",\"" + "reason" + "\":" + "\"" == b1 + "\",\"reason\":\"";
    var b2 := b1 + "\",\"reason\":\"" + r;
    assert b2 + "\"" + "}" == b2 + "\"}";
  }

  /** A string member after `b`, whose closing quote is the next literal's. */
  lemma StrMember(b: string, key: string, s: string)
    ensures Put(b + ",\"" + key + "\":", JStr(s)) == b + (",\"" + key + "\":\"") + s + "\""
  {
    assert b + ",\"" + key + "\":" + "\"" == b + (",\"" + key + "\":\"");
  }

  lemma ShardFront(b: string, shard: nat, index: nat, node: string)
    ensures PutMembers(b + "{", [Member("shard", JNum(shard)), Member("index", JStr("logs-" + Itoa(index))),
                                 Member("node", JStr(node))])
         == b + "{\"shard\":" + Itoa(shard) + ",\"index\":\"logs-" + Itoa(index) + "\",\"node\":\"" + node + "\""
  {
    var m0, m1, m2 := Member("shard", JNum(shard)), Member("index", JStr("logs-" + Itoa(index))),
                      Member("node", JStr(node));
    Members3(b + "{", m0, m1, m2);
    Members2(b + "{", m0, m1);
    assert b + "{" + "\"" + "shard" + "\":" == b + "{\"shard\":";
    var b1 := b + "{\"shard\":" + Itoa(shard);
    StrMember(b1, "index", "logs-" + Itoa(index));
    assert b1 + (",\"" + "index" + "\":\"") + ("logs-" + Itoa(index)) == b1 + ",\"index\":\"logs-" + Itoa(index);
    var b2 := b1 + ",\"index\":\"logs-" + Itoa(index);
    StrMember(b2 + "\"", "node", node);
    assert b2 + "\"" + (",\"" + "node" + "\":\"") == b2 + "\",\"node\":\"";
  }

  lemma ShardJson(b: string, shard: nat, index: nat, node: string, c: string, r: string)
    ensures Put(b, Shard(shard, index, node, c, r)) ==
            b + "{\"shard\":" + Itoa(shard) + ",\"index\":\"logs-" + Itoa(index) + "\",\"node\":\"" + node
            + "\",\"reason\":{\"type\":\"" + c + "\",\"reason\":\"" + r + "\"}}"
  {
    var ms := Shard(shard, index, node, c, r).members;
    ShardFront(b, shard, index, node);
    MembersSnoc(b + "{", ms[..3], ms[3]);
    assert ms[..3] == [ms[0], ms[1], ms[2]] && ms[..3] + [ms[3]] == ms;
    var b3 := b + "{\"shard\":" + Itoa(shard) + ",\"index\":\"logs-" + Itoa(index) + "\",\"node\":\"" + node;
    ReasonMember(b3, c, r);
  }

  lemma ReasonMember(b: string, c: string, r: string)
    ensures Put(b + "\"" + ",\"" + "reason" + "\":", Failure(c, r)) + "}"
         == b + "\",\"reason\":{\"type\":\"" + c + "\",\"reason\":\"" + r + "\"}}"
  {
    var b1 := b + "\"" + ",\"" + "reason" + "\":";
    FailureText(b1, c, r);
    assert b1 + "{\"type\":\"" == b + "\",\"reason\":{\"type\":\"";
    var b2 := b + "\",\"reason\":{\"type\":\"" + c + "\",\"reason\":\"" + r;
    assert b2 + "\"}" + "}" == b2 + "\"}}";
  }

  lemma ShardWellFormed(shard: nat, index: nat, node: string, c: string, r: string)
    requires Unescaped(node) && Unescaped(c) && Unescaped(r)
    ensures WellFormed(Shard(shard, index, node, c, r)) && WellFormed(Failure(c, r))
  {
    AtoiItoa(index);
    FailureWellFormed(c, r);
    assert Unescaped("logs-" + Itoa(index));
    assert Unescaped("shard") && Unescaped("index") && Unescaped("node") && Unescaped("reason");
    var ms := Shard(shard, index, node, c, r).members;
    forall m | m in ms
      ensures Unescaped(m.key) && WellFormed(m.value)
    {
      assert m == ms[0] || m == ms[1] || m == ms[2] || m == ms[3];
    }
  }

  lemma FailureWellFormed(c: string, r: string)
    requires Unescaped(c) && Unescaped(r)
    ensures WellFormed(Failure(c, r))
  {
    assert Unescaped("type") && Unescaped("reason");
    var ms := Failure(c, r).members;
    forall m | m in ms
      ensures Unescaped(m.key) && WellFormed(m.value)
    {
      assert m == ms[0] || m == ms[1];
    }
  }

  // ----- the whole response

  lemma RootCauseMember(b: string, c: string, r: string)
    ensures PutMember(b, Member("root_cause", JArr([Failure(c, r)])))
         == b + "\"root_cause\":[{\"type\":\"" + c + REASON + r + "\"}" + "]"
  {
    var b0 := b + "\"" + "root_cause" + "\":" + "[";
    FailureText(b0, c, r);
    assert b0 + "{\"type\":\"" == b + "\"root_cause\":[{\"type\":\"";
    assert PutItems(b0, [Failure(c, r)]) == Put(b0, Failure(c, r));
    assert Put(b + "\"" + "root_cause" + "\":", JArr([Failure(c, r)])) == PutItems(b0, [Failure(c, r)]) + "]";
  }

  /** The first three members: up to the reason. */
  lemma BodyFront(b: string, c1: string, r1: string, c2: string, r2: string)
    ensures PutMembers(b, [Member("root_cause", JArr([Failure(c1, r1)])), Member("type", JStr(c2)),
                           Member("reason", JStr(r2))])
         == b + "\"root_cause\":[{\"type\":\"" + c1 + REASON + r1 + TYPE + c2 + REASON + r2 + "\""
  {
    var m0, m1, m2 := Member("root_cause", JArr([Failure(c1, r1)])), Member("type", JStr(c2)),
                      Member("reason", JStr(r2));
    Members3(b, m0, m1, m2);
    Members2(b, m0, m1);
    RootCauseMember(b, c1, r1);
    TypeMembers(b + "\"root_cause\":[{\"type\":\"" + c1 + REASON + r1, c2, r2);
  }

  lemma TypeMembers(b: string, c: string, r: string)
    ensures Put(Put(b + "\"}" + "]" + ",\"" + "type" + "\":", JStr(c)) + ",\"" + "reason" + "\":", JStr(r))
         == b + TYPE + c + REASON + r + "\""
  {
    StrMember(b + "\"}" + "]", "type", c);
    assert b + "\"}" + "]" + (",\"" + "type" + "\":\"") == b + TYPE;
    var b2 := b + TYPE + c;
    StrMember(b2 + "\"", "reason", r);
    assert b2 + "\"" + (",\"" + "reason" + "\":\"") == b2 + REASON;
  }

  /** The other three, and what follows the items. */
  lemma BodyText(b: string, c1: string, r1: string, c2: string, r2: string, items: seq<Json>)
    ensures var b2 := b + "\"root_cause\":[{\"type\":\"" + c1 + REASON + r1 + TYPE + c2 + REASON + r2;
            PutMembers(b, ErrorBody(c1, r1, c2, r2, items).members) == PutItems(b2 + SHARDS, items) + "]"
  {
    var ms := ErrorBody(c1, r1, c2, r2, items).members;
    BodyFront(b, c1, r1, c2, r2);
    MembersSnoc(b, ms[..3], ms[3]);
    MembersSnoc(b, ms[..4], ms[4]);
    MembersSnoc(b, ms[..5], ms[5]);
    assert ms[..3] == [ms[0], ms[1], ms[2]];
    assert ms[..3] + [ms[3]] == ms[..4] && ms[..4] + [ms[4]] == ms[..5] && ms[..5] + [ms[5]] == ms;
    var b2 := b + "\"root_cause\":[{\"type\":\"" + c1 + REASON + r1 + TYPE + c2 + REASON + r2;
    PhaseMembers(b2);
  }

  lemma PhaseMembers(b: string)
    ensures Put(Put(b + "\"" + ",\"" + "phase" + "\":", JStr("query")) + ",\"" + "grouped" + "\":", JBool(true))
            + ",\"" + "failed_shards" + "\":" + "[" == b + SHARDS
  {
    PhaseText(b);
    GroupedText(b + PHASE);
    FailedText(b + PHASE + GROUPED);
    Join(b, PHASE, GROUPED);
    Join(b, PHASE + GROUPED, FAILED);
  }

  lemma PhaseText(b: string)
    ensures Put(b + "\"" + ",\"" + "phase" + "\":", JStr("query")) == b + PHASE
  {
    assert b + "\"" + ",\"" + "phase" + "\":" == b + "\",\"phase\":";
    assert b + "\",\"phase\":" + "\"" + "query" + "\"" == b + PHASE;
  }

  lemma GroupedText(b: string)
    ensures Put(b + ",\"" + "grouped" + "\":", JBool(true)) == b + GROUPED
  {
    assert b + ",\"" + "grouped" + "\":" + "true" == b + GROUPED;
  }

  lemma FailedText(b: string)
    ensures b + ",\"" + "failed_shards" + "\":" + "[" == b + FAILED
  {
  }

  lemma BodyWellFormed(c1: string, r1: string, c2: string, r2: string, items: seq<Json>)
    requires Unescaped(c1) && Unescaped(r1) && Unescaped(c2) && Unescaped(r2)
    requires forall x <- items :: WellFormed(x)
    ensures WellFormed(ErrorBody(c1, r1, c2, r2, items))
  {
    FailureWellFormed(c1, r1);
    KeysUnescaped();
    var ms := ErrorBody(c1, r1, c2, r2, items).members;
    assert WellFormed(ms[0].value) by { assert ms[0].value.items == [Failure(c1, r1)]; }
    forall m | m in ms
      ensures Unescaped(m.key) && WellFormed(m.value)
    {
      assert m == ms[0] || m == ms[1] || m == ms[2] || m == ms[3] || m == ms[4] || m == ms[5];
    }
  }

  lemma KeysUnescaped()
    ensures Unescaped("root_cause") && Unescaped("type") && Unescaped("reason") && Unescaped("phase")
    ensures Unescaped("grouped") && Unescaped("failed_shards") && Unescaped("query")
    ensures Unescaped("error") && Unescaped("status")
  {
  }

  lemma ResponseText(c1: string, r1: string, c2: string, r2: string, items: seq<Json>)
    ensures Put("" + "{" + "\"" + "error" + "\":", ErrorBody(c1, r1, c2, r2, items))
         == PutItems(Opening(c1, r1, c2, r2), items) + "]" + "}"
  {
    var start := "" + "{" + "\"" + "error" + "\":";
    BodyText(start + "{", c1, r1, c2, r2, items);
    OpeningText();
    PutBody(start, c1, r1, c2, r2, items);
  }

  lemma OpeningText()
    ensures "" + "{" + "\"" + "error" + "\":" + "{" + "\"root_cause\":[{\"type\":\"" == ROOT_CAUSE
  {
  }

  lemma PutBody(b: string, c1: string, r1: string, c2: string, r2: string, items: seq<Json>)
    ensures Put(b, ErrorBody(c1, r1, c2, r2, items))
         == PutMembers(b + "{", ErrorBody(c1, r1, c2, r2, items).members) + "}"
  {
  }

  lemma EndingText(t: string)
    ensures Put(t + "]" + "}" + ",\"" + "status" + "\":", JNum(500)) + "}" == t + ENDING
  {
    assert Itoa(5) == "5" && Itoa(50) == "50" && Itoa(500) == "500";
    assert t + "]" + "}" + ",\"" + "status" + "\":" + "500" + "}" == t + ENDING;
  }

  lemma ResponseIsJson(c1: string, r1: string, c2: string, r2: string, items: seq<Json>)
    requires Cause(c1) && Reason(r1) && Cause(c2) && Reason(r2)
    requires forall x <- items :: WellFormed(x)
    ensures IsJsonText(PutItems(Opening(c1, r1, c2, r2), items) + ENDING)
    ensures PutItems(Opening(c1, r1, c2, r2), items) + ENDING == Put("", ErrorResponse(c1, r1, c2, r2, items))
  {
    var j := ErrorResponse(c1, r1, c2, r2, items);
    BodyWellFormed(c1, r1, c2, r2, items);
    KeysUnescaped();
    forall m | m in j.members
      ensures Unescaped(m.key) && WellFormed(m.value)
    {
      assert m == j.members[0] || m == j.members[1];
    }
    assert WellFormed(j);
    Members2("" + "{", j.members[0], j.members[1]);
    ResponseText(c1, r1, c2, r2, items);
    EndingText(PutItems(Opening(c1, r1, c2, r2), items));
    assert Put("", j) == PutMembers("" + "{", j.members) + "}";
  }

  // ----- the builder

  ghost predicate ItemsOk(items: seq<Json>) {
    forall x <- items :: WellFormed(x)
  }

  function DrawnCause(rng: Rng): (string, Rng) {
    var (i, r) := rng.Intn(4);
    (CAUSES[i], r)
  }

  function DrawnReason(rng: Rng): (string, Rng) {
    var (i, r) := rng.Intn(5);
    (REASONS[i], r)
  }

  /** A shard, an index, a node of 48 bits, a cause and a reason. */
  function Drawn(rng: Rng): (Json, Rng) {
    var (shard, r1) := rng.Intn(10);
    var (index, r2) := r1.Intn(100);
    var (node, r3) := r2.Uint64();
    var (c, r4) := DrawnCause(r3);
    var (reason, r5) := DrawnReason(r4);
    (Shard(shard, index, Hex(node % 0x1_0000_0000_0000), c, reason), r5)
  }

  /** The first `k` items, each drawn where the one before left the generator. */
  function DrawnItems(rng: Rng, k: nat): (r: (seq<Json>, Rng))
    ensures |r.0| == k && |r.1.calls| == |rng.calls| + 5 * k
  {
    if k == 0 then ([], rng)
    else
      var (items, r) := DrawnItems(rng, k - 1);
      (items + [Drawn(r).0], Drawn(r).1)
  }

  /** Two causes, each with a reason, and then `k` items. */
  function DrawnText(rng: Rng, k: nat): (string, Rng) {
    var (c1, r1) := DrawnCause(rng);
    var (m1, r2) := DrawnReason(r1);
    var (c2, r3) := DrawnCause(r2);
    var (m2, r4) := DrawnReason(r3);
    var (items, r5) := DrawnItems(r4, k);
    (Put("", ErrorResponse(c1, m1, c2, m2, items)), r5)
  }

  method DrawCause(rng: Rng) returns (c: string, next: Rng)
    ensures Cause(c) && (c, next) == DrawnCause(rng)
  {
    var (i, r) := rng.Intn(|CAUSES|);
    CausesOk(i);
    c := CAUSES[i];
    next := r;
  }

  method DrawReason(rng: Rng) returns (s: string, next: Rng)
    ensures Reason(s) && (s, next) == DrawnReason(rng)
  {
    var (i, r) := rng.Intn(|REASONS|);
    ReasonsOk(i);
    s := REASONS[i];
    next := r;
  }

  const MASK_48: nat := 0x1_0000_0000_0000

  /** Appends one item to the text. */
  method AppendShard(rng: Rng, b: string) returns (text: string, next: Rng)
    ensures (var (item, r) := Drawn(rng); text == Put(b, item) && WellFormed(item) && next == r)
    ensures |b| + 109 <= |text| <= |b| + 169
  {
    text := b + "{\"shard\":";
    var (shard, r1) := rng.Intn(10);
    text := text + Itoa(shard) + ",\"index\":\"logs-";
    var (index, r2) := r1.Intn(100);
    text := text + Itoa(index) + "\",\"node\":\"";
    var (u, r3) := r2.Uint64();
    var node := Hex(u % MASK_48);
    text := text + node + "\",\"reason\":{\"type\":\"";
    var c, r4 := DrawCause(r3);
    text := text + c + "\",\"reason\":\"";
    var r;
    r, next := DrawReason(r4);
    text := text + r + "\"}}";
    assert Power16(12) == MASK_48;
    HexLength(u % MASK_48, 12);
    ShardJson(b, shard, index, node, c, r);
    ShardWellFormed(shard, index, node, c, r);
    ShardLength(shard, index, node, c, r);
  }

  /** For every stream of draws and every target, the text is the JSON text of the response that the draws give,
      with `k` items; it reaches the target, and overshoots it by less than an item and the end: the comma test
      is right because the length exceeds 300 exactly when an item has been written. */
  method BuildErrorResponse(rng: Rng, targetLen: int) returns (text: string, next: Rng, ghost k: nat)
    requires targetLen + 512 >= 0
    ensures IsJsonText(text)
    ensures (text, next) == DrawnText(rng, k)
    ensures targetLen + 16 <= |text| && 209 <= |text|
    ensures |text| <= 305 || |text| <= targetLen + 185
  {
    var c1, r1 := DrawCause(rng);
    var m1, r2 := DrawReason(r1);
    var c2, r3 := DrawCause(r2);
    var m2, r4 := DrawReason(r3);
    var b := ROOT_CAUSE + c1 + REASON + m1 + TYPE + c2 + REASON + m2 + SHARDS;
    next := r4;
    OpeningLength(c1, m1, c2, m2);
    k := 0;
    ghost var items: seq<Json> := [];
    while |b| < targetLen
      invariant (items, next) == DrawnItems(r4, k)
      invariant ItemsOk(items) && b == PutItems(Opening(c1, m1, c2, m2), items)
      invariant k == 0 ==> 193 <= |b| <= 289
      invariant k > 0 ==> 302 <= |b| <= targetLen + 169
      decreases targetLen - |b|
    {
      ghost var before := b;
      if |b| > 300 {
        b := b + ",";
      }
      ghost var item := Drawn(next).0;
      assert b == before + if items == [] then "" else ",";
      b, next := AppendShard(next, b);
      ItemsSnoc(Opening(c1, m1, c2, m2), items, item);
      items := items + [item];
      k := k + 1;
    }
    assert |ENDING| == 16;
    ResponseIsJson(c1, m1, c2, m2, items);
    text := b + ENDING;
  }
}
