/** Redeemable codes: the pool's rows and the guarded writes on one of them. */
module Codes {
  import opened Basics
  import opened Orders

  type CodeId = nat

  datatype CodeStatus = Available | Delivered | Expired

  /** A row of the pool; `owner` and `holder` stamp a delivered one. */
  datatype Row = Row(
    product: ProductId,
    value: string,
    pin: string,
    status: CodeStatus,
    owner: Option<OrderId>,
    holder: string)

  type Pool = map<CodeId, Row>

  predicate IsAvailable(r: Row, p: ProductId) {
    r.product == p && r.status == Available
  }

  predicate OwnedBy(r: Row, o: OrderId) {
    r.status == Delivered && r.owner == Some(o)
  }

  function Value(pool: Pool, id: CodeId): string {
    if id in pool then pool[id].value else ""
  }

  function Stamp(r: Row, o: OrderId, holder: string): Row {
    r.(status := Delivered, owner := Some(o), holder := holder)
  }

  function Unstamp(r: Row): Row {
    r.(status := Available, owner := None, holder := "")
  }

  function AvailableIds(pool: Pool, p: ProductId): set<CodeId> {
    set id | id in pool && IsAvailable(pool[id], p)
  }

  function OwnedIds(pool: Pool, o: OrderId): set<CodeId> {
    set id | id in pool && OwnedBy(pool[id], o)
  }

  /** The order's codes of one product. */
  function OwnedOf(pool: Pool, o: OrderId, p: ProductId): set<CodeId> {
    set id | id in pool && OwnedBy(pool[id], o) && pool[id].product == p
  }

  /** Every code the order holds goes back on sale. */
  function Released(pool: Pool, o: OrderId): Pool {
    map id | id in pool :: if OwnedBy(pool[id], o) then Unstamp(pool[id]) else pool[id]
  }

  /** Only delivered rows carry a stamp, and all of them do. */
  predicate StampOk(r: Row) {
    if r.status == Delivered then r.owner.Some? else r.owner.None? && r.holder == ""
  }

  ghost predicate PoolOk(pool: Pool) {
    && (forall id :: id in pool ==> StampOk(pool[id]))
    && (forall i, j :: i in pool && j in pool && pool[i].product == pool[j].product && pool[i].value == pool[j].value ==> i == j)
  }

  /** The unique index: no other row of the product has the value. */
  predicate ValueFree(pool: Pool, p: ProductId, value: string, except: set<CodeId>) {
    forall id :: id in pool && id !in except ==> !(pool[id].product == p && pool[id].value == value)
  }

  /** Spaces are stripped before a value is stored. */
  function Normalize(s: string): (r: string)
    ensures forall c :: c in r ==> !IsSpace(c) && c in s
    ensures r == "" <==> forall c :: c in s ==> IsSpace(c)
  {
    if s == "" then ""
    else if IsSpace(s[0]) then Normalize(s[1..]) else [s[0]] + Normalize(s[1..])
  }

  /** Every other character is kept, once, and in order. */
  lemma {:induction false} NormalizeJoins(a: string, b: string)
    ensures Normalize(a + b) == Normalize(a) + Normalize(b)
    ensures (forall c :: c in a ==> !IsSpace(c)) ==> Normalize(a) == a
  {
    if a == "" {
      assert a + b == b;
    } else {
      assert (a + b)[1..] == a[1..] + b;
      NormalizeJoins(a[1..], b);
    }
  }

  /** The characters Go counts as white space. */
  predicate IsSpace(c: char) {
    var n := c as int;
    || 9 <= n <= 13 || n == 32 || n == 0x85 || n == 0xA0 || n == 0x1680 || 0x2000 <= n <= 0x200A
    || n == 0x2028 || n == 0x2029 || n == 0x202F || n == 0x205F || n == 0x3000
  }

  /** From before to now, some available rows were stamped for the order and nothing else changed. */
  ghost predicate ClaimsOnly(before: Pool, now: Pool, o: OrderId) {
    && now.Keys == before.Keys
    && forall id :: id in before ==>
         now[id] == before[id] || (before[id].status == Available && OwnedBy(now[id], o) && now[id] == Stamp(before[id], o, now[id].holder))
  }

  /** Releasing an order's claims gives the pool back exactly. */
  lemma ReleaseUndoesClaims(before: Pool, now: Pool, o: OrderId)
    requires PoolOk(before) && OwnedIds(before, o) == {} && ClaimsOnly(before, now, o)
    ensures Released(now, o) == before
  {
    forall id | id in before
      ensures Released(now, o)[id] == before[id]
    {
      assert id !in OwnedIds(before, o);
      assert StampOk(before[id]);
    }
  }

  /** What was available is still available or now the order's. */
  lemma ClaimsTakeFromAvailable(before: Pool, now: Pool, o: OrderId, p: ProductId)
    requires OwnedIds(before, o) == {} && ClaimsOnly(before, now, o)
    ensures AvailableIds(before, p) == AvailableIds(now, p) + OwnedOf(now, o, p)
    ensures |AvailableIds(before, p)| == |AvailableIds(now, p)| + |OwnedOf(now, o, p)|
  {
    forall id
      ensures id in AvailableIds(before, p) <==> id in AvailableIds(now, p) || id in OwnedOf(now, o, p)
    {
      assert id !in OwnedIds(before, o);
    }
    assert AvailableIds(before, p) == AvailableIds(now, p) + OwnedOf(now, o, p);
    assert AvailableIds(now, p) !! OwnedOf(now, o, p);
  }

  lemma ClaimsCompose(before: Pool, now: Pool, o: OrderId, ids: set<CodeId>, p: ProductId, holder: string)
    requires ClaimsOnly(before, now, o) && ids <= AvailableIds(now, p)
    ensures ClaimsOnly(before, StampAll(now, ids, o, holder), o)
  {
    var later := StampAll(now, ids, o, holder);
    forall id | id in before && id in ids
      ensures before[id].status == Available && OwnedBy(later[id], o) && later[id] == Stamp(before[id], o, later[id].holder)
    {
      assert IsAvailable(now[id], p);
    }
  }

  /** Claiming more rows of one product adds them to the order's codes of that product, and of no other. */
  lemma OwnedGrows(now: Pool, o: OrderId, ids: set<CodeId>, p: ProductId, holder: string)
    requires ids <= AvailableIds(now, p)
    ensures OwnedOf(StampAll(now, ids, o, holder), o, p) == OwnedOf(now, o, p) + ids
    ensures |OwnedOf(StampAll(now, ids, o, holder), o, p)| == |OwnedOf(now, o, p)| + |ids|
  {
    assert OwnedOf(StampAll(now, ids, o, holder), o, p) == OwnedOf(now, o, p) + ids;
    assert OwnedOf(now, o, p) !! ids;
  }

  lemma OwnedElsewhere(now: Pool, o: OrderId, ids: set<CodeId>, p: ProductId, holder: string, q: ProductId)
    requires ids <= AvailableIds(now, p) && q != p
    ensures OwnedOf(StampAll(now, ids, o, holder), o, q) == OwnedOf(now, o, q)
  {
  }

  /** Rows stamped for an order in one go. */
  function StampAll(pool: Pool, ids: set<CodeId>, o: OrderId, holder: string): Pool {
    map id | id in pool :: if id in ids then Stamp(pool[id], o, holder) else pool[id]
  }

  lemma StampOneMore(pool: Pool, ids: set<CodeId>, id: CodeId, o: OrderId, holder: string)
    requires id in pool && id !in ids
    ensures StampAll(pool, ids, o, holder)[id := Stamp(pool[id], o, holder)] == StampAll(pool, ids + {id}, o, holder)
  {
  }

  lemma ReleaseAfterStamp(pool: Pool, ids: set<CodeId>, o: OrderId, holder: string)
    requires forall id :: id in pool ==> StampOk(pool[id])
    requires forall id :: id in ids && id in pool ==> pool[id].status == Available
    ensures Released(StampAll(pool, ids, o, holder), o) == Released(pool, o)
  {
    var a, b := Released(StampAll(pool, ids, o, holder), o), Released(pool, o);
    forall id | id in pool
      ensures a[id] == b[id]
    {
      assert StampOk(pool[id]);
    }
  }

  /** The stock field of each listed product that exists, recomputed from the pool. */
  function Mirrored(stock: map<ProductId, nat>, pool: Pool, ps: set<ProductId>): map<ProductId, nat> {
    map p | p in stock :: if p in ps then |AvailableIds(pool, p)| else stock[p]
  }

  /** Every product shows as many units as it has codes available. */
  predicate StockTrue(stock: map<ProductId, nat>, pool: Pool) {
    forall p :: p in stock ==> stock[p] == |AvailableIds(pool, p)|
  }

  /** The pool changed for the listed products only, and those were recomputed: stock is true again. */
  lemma MirrorRestores(stock: map<ProductId, nat>, before: Pool, pool: Pool, ps: set<ProductId>)
    requires StockTrue(stock, before)
    requires forall p :: p !in ps ==> AvailableIds(pool, p) == AvailableIds(before, p)
    ensures StockTrue(Mirrored(stock, pool, ps), pool)
  {
  }

  lemma MirrorTwice(stock: map<ProductId, nat>, pool: Pool, a: set<ProductId>, b: set<ProductId>)
    ensures Mirrored(Mirrored(stock, pool, a), pool, b) == Mirrored(stock, pool, a + b)
  {
  }
}
