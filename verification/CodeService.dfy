/** Claims, releases and lifecycle of the code pool, with each product's stock mirrored from it. */
module CodeService {
  import opened Basics
  import opened Orders
  import opened Codes
  import opened Database

  datatype CodeError = OutOfStock | NotFound | NotAvailable | DeliveredCode | EmptyCode | DuplicateCode

  datatype UploadItem = UploadItem(value: string, pin: string)

  datatype UploadResult = UploadResult(inserted: nat, duplicates: nat, invalid: nat)

  /** A text with the database's case folding applied to each character. */
  function Folded(s: string, fold: char -> char): string {
    seq(|s|, i requires 0 <= i < |s| => fold(s[i]))
  }

  predicate EndsWith(s: string, suffix: string, fold: char -> char) {
    |suffix| <= |s| && Folded(s[|s| - |suffix|..], fold) == Folded(suffix, fold)
  }

  lemma SuffixMatches(s: string, suffix: string, fold: char -> char)
    requires EndsWith(s, suffix, fold)
    ensures |suffix| <= |s| && forall j :: 0 <= j < |suffix| ==> fold(s[|s| - |suffix| + j]) == fold(suffix[j])
  {
    var tail := s[|s| - |suffix|..];
    forall j | 0 <= j < |suffix|
      ensures fold(tail[j]) == fold(suffix[j])
    {
      assert Folded(tail, fold)[j] == Folded(suffix, fold)[j];
    }
  }

  ghost predicate SomeExact(pool: Pool, value: string) {
    exists id :: id in pool && pool[id].value == value
  }

  /** What a lookup by value may return: an exact match, or, only when there is none, a suffix match. */
  ghost predicate Matches(pool: Pool, value: string, id: CodeId, fold: char -> char) {
    && id in pool
    && (pool[id].value == value || (!SomeExact(pool, value) && EndsWith(pool[id].value, value, fold)))
  }

  /** These rows went to the order, each with its value and pin; every other row stayed. */
  predicate Delivers(before: Pool, after: Pool, ids: set<CodeId>, o: OrderId, holder: string) {
    && after.Keys == before.Keys && ids <= before.Keys
    && forall k :: k in before ==>
         after[k] == if k in ids then Row(before[k].product, before[k].value, before[k].pin, Delivered, Some(o), holder) else before[k]
  }

  /** The order's rows are on sale again, each with its value and pin; every other row stayed. */
  predicate Frees(before: Pool, after: Pool, o: OrderId) {
    && after.Keys == before.Keys
    && forall k :: k in before ==>
         after[k] == if before[k].status == Delivered && before[k].owner == Some(o)
                     then Row(before[k].product, before[k].value, before[k].pin, Available, None, "") else before[k]
  }

  class Service {
    const db: Database

    constructor (db: Database)
      ensures this.db == db
    {
      this.db := db;
    }

    /** Stock of the pool, true at the start and the end of every top-level operation. */
    ghost predicate Valid()
      reads db
    {
      PoolOk(db.codes) && StockTrue(db.stock, db.codes)
    }

    // ----- repository writes -----

    /** Picks one available code and stamps it, in a single write. */
    method ClaimOne(p: ProductId, o: OrderId, holder: string) returns (r: Option<CodeId>)
      modifies db`codes
      ensures r.None? <==> AvailableIds(old(db.codes), p) == {}
      ensures r.None? ==> db.codes == old(db.codes)
      ensures r.Some? ==>
                && r.value in AvailableIds(old(db.codes), p) && Delivers(old(db.codes), db.codes, {r.value}, o, holder)
                && db.codes == old(db.codes)[r.value := Stamp(old(db.codes)[r.value], o, holder)]
    {
      var free := AvailableIds(db.codes, p);
      if free == {} {
        return None;
      }
      var id :| id in free;
      db.codes := db.codes[id := Stamp(db.codes[id], o, holder)];
      return Some(id);
    }

    method ReleaseByOrder(o: OrderId)
      modifies db`codes
      ensures db.codes == Released(old(db.codes), o) && Frees(old(db.codes), db.codes, o)
    {
      db.codes := Released(db.codes, o);
    }

    method Remirror(p: ProductId)
      modifies db`stock
      ensures db.stock == Mirrored(old(db.stock), db.codes, {p})
    {
      if p in db.stock {
        db.stock := db.stock[p := |AvailableIds(db.codes, p)|];
      }
    }

    // ----- claims for an order -----

    /**
     All or nothing: exactly qty available codes of the product are stamped for
     the order, or, when there are not that many, everything the order holds is
     given back, of whatever product; stock is recomputed for this product only.
     */
    method ClaimForOrder(p: ProductId, o: OrderId, holder: string, qty: nat) returns (r: Result<seq<CodeId>, CodeError>)
      requires PoolOk(db.codes)
      modifies db`codes, db`stock
      ensures r.Ok? <==> qty <= |AvailableIds(old(db.codes), p)|
      ensures r.Ok? ==>
                && |r.value| == qty && |Elements(r.value)| == qty && Elements(r.value) <= AvailableIds(old(db.codes), p)
                && db.codes == StampAll(old(db.codes), Elements(r.value), o, holder)
                && Delivers(old(db.codes), db.codes, Elements(r.value), o, holder)
      ensures r.Err? ==> r.error == OutOfStock && db.codes == Released(old(db.codes), o)
      ensures db.stock == Mirrored(old(db.stock), db.codes, {p})
    {
      ghost var pool := db.codes;
      ghost var free := AvailableIds(pool, p);
      var claimed: seq<CodeId> := [];
      var i := 0;
      assert db.codes == StampAll(pool, {}, o, holder);
      while i < qty
        invariant i == |claimed| == |Elements(claimed)| && i <= qty
        invariant Elements(claimed) <= free
        invariant db.codes == StampAll(pool, Elements(claimed), o, holder)
        invariant db.stock == old(db.stock)
      {
        LeftAvailable(pool, Elements(claimed), p, o, holder);
        SubsetSize(Elements(claimed), free);
        var c := ClaimOne(p, o, holder);
        if c.None? {
          ReleaseByOrder(o);
          ReleaseAfterStamp(pool, Elements(claimed), o, holder);
          Remirror(p);
          return Err(OutOfStock);
        }
        StampOneMore(pool, Elements(claimed), c.value, o, holder);
        ElementsGrow(claimed, c.value);
        claimed := claimed + [c.value];
        i := i + 1;
      }
      SubsetSize(Elements(claimed), free);
      Remirror(p);
      return Ok(claimed);
    }

    /** Gives back every code of the order and recomputes the listed products' stock. */
    method ReleaseForOrder(o: OrderId, products: seq<ProductId>)
      modifies db`codes, db`stock
      ensures db.codes == Released(old(db.codes), o) && Frees(old(db.codes), db.codes, o)
      ensures db.stock == Mirrored(old(db.stock), db.codes, Elements(products))
      ensures forall p :: p in db.stock && p in products ==> db.stock[p] == |AvailableIds(db.codes, p)|
    {
      ReleaseByOrder(o);
      for i := 0 to |products|
        invariant db.codes == Released(old(db.codes), o) && Frees(old(db.codes), db.codes, o)
        invariant db.stock == Mirrored(old(db.stock), db.codes, Elements(products[..i]))
      {
        Remirror(products[i]);
        assert Elements(products[..i + 1]) == Elements(products[..i]) + {products[i]};
      }
      assert products[..|products|] == products;
    }

    // ----- lifecycle -----

    /** One new available row, unless the product already has the value. */
    method InsertOne(p: ProductId, item: UploadItem) returns (r: Result<CodeId, CodeError>)
      modifies db`codes
      ensures r.Err? <==> item.value in Values(old(db.codes), p)
      ensures r.Err? ==> r.error == DuplicateCode && db.codes == old(db.codes)
      ensures r.Ok? ==> r.value !in old(db.codes) && db.codes == old(db.codes)[r.value := Fresh(p, item)]
    {
      if exists id :: id in db.codes && db.codes[id].product == p && db.codes[id].value == item.value {
        return Err(DuplicateCode);
      }
      var unused := FreshId(db.codes.Keys);
      var id: CodeId :| id !in db.codes;
      db.codes := db.codes[id := Fresh(p, item)];
      return Ok(id);
    }

    /**
     Inserts the items whose value is neither stored nor repeated in the batch:
     afterwards the product's values are the old ones and the batch's, each once.
     */
    method BulkInsert(p: ProductId, items: seq<UploadItem>) returns (inserted: nat, duplicates: nat)
      requires PoolOk(db.codes)
      modifies db`codes
      ensures Stored(old(db.codes), db.codes, p, items, inserted, duplicates) && FromBatch(old(db.codes), db.codes, items)
    {
      inserted, duplicates := 0, 0;
      for i := 0 to |items|
        invariant Stored(old(db.codes), db.codes, p, items[..i], inserted, duplicates)
        invariant FromBatch(old(db.codes), db.codes, items[..i])
      {
        ghost var before := db.codes;
        var added := false;
        if items[i].value != "" {
          added := InsertUnlessPresent(p, items[i]);
        }
        StoredOneMore(old(db.codes), before, db.codes, p, items, i, inserted, duplicates, added);
        FromOneMore(old(db.codes), before, db.codes, items[..i], items[i]);
        Prefix(items, i);
        if items[i].value != "" {
          if added {
            inserted := inserted + 1;
          } else {
            duplicates := duplicates + 1;
          }
        }
      }
      Prefix(items, |items|);
    }

    method InsertUnlessPresent(p: ProductId, item: UploadItem) returns (inserted: bool)
      requires PoolOk(db.codes)
      modifies db`codes
      ensures PoolOk(db.codes) && Grown(old(db.codes), db.codes, p)
      ensures Values(db.codes, p) == Values(old(db.codes), p) + {item.value}
      ensures |db.codes| == |old(db.codes)| + if inserted then 1 else 0
      ensures forall id :: id in db.codes && id !in old(db.codes) ==> db.codes[id].value == item.value && db.codes[id].pin == item.pin
    {
      var r := InsertOne(p, item);
      if r.Ok? {
        InsertKeeps(old(db.codes), r.value, p, item);
      }
      return r.Ok?;
    }

    /** Stores a batch, spaces stripped, and recomputes the product's stock. */
    method Upload(p: ProductId, items: seq<UploadItem>) returns (r: UploadResult)
      requires Valid()
      modifies db`codes, db`stock
      ensures Valid() && Grown(old(db.codes), db.codes, p)
      ensures Values(db.codes, p) == Values(old(db.codes), p) + BatchValues(Normalized(items))
      ensures forall v :: v in Values(db.codes, p) <==> v in Values(old(db.codes), p) || Supplies(items, v)
      ensures forall id :: id in db.codes && id !in old(db.codes) ==>
                exists i :: 0 <= i < |items| && Normalize(items[i].value) == db.codes[id].value && Normalize(items[i].pin) == db.codes[id].pin
      ensures r.invalid == |BlankItems(items)|
      ensures r.inserted == |db.codes| - |old(db.codes)|
      ensures r.inserted + r.duplicates + r.invalid == |items|
    {
      var normalized, invalid := NormalizeBatch(items);
      forall v
        ensures v in BatchValues(Normalized(items)) <==> Supplies(items, v)
      {
        BatchTold(items, v);
      }
      var inserted, duplicates := BulkInsert(p, normalized);
      GrownElsewhere(old(db.codes), db.codes, p);
      forall id | id in db.codes && id !in old(db.codes)
        ensures exists i :: 0 <= i < |items| && Normalize(items[i].value) == db.codes[id].value && Normalize(items[i].pin) == db.codes[id].pin
      {
        var j :| 0 <= j < |normalized| && normalized[j].value == db.codes[id].value && normalized[j].pin == db.codes[id].pin;
        var i := NormalizedFrom(items, j);
      }
      Remirror(p);
      MirrorRestores(old(db.stock), old(db.codes), db.codes, {p});
      return UploadResult(inserted, duplicates, invalid);
    }

    method NormalizeBatch(items: seq<UploadItem>) returns (normalized: seq<UploadItem>, invalid: nat)
      ensures normalized == Normalized(items) && invalid + NonEmpty(normalized) == |items|
      ensures invalid == |BlankItems(items)|
    {
      normalized, invalid := [], 0;
      for i := 0 to |items|
        invariant invalid + NonEmpty(normalized) == i && invalid == |BlankItems(items[..i])|
        invariant normalized == Normalized(items[..i])
      {
        Prefix(items, i);
        BlankOneMore(items[..i], items[i]);
        var item := UploadItem(Normalize(items[i].value), Normalize(items[i].pin));
        if item.value == "" {
          invalid := invalid + 1;
        } else {
          BatchStep(normalized, item);
          normalized := normalized + [item];
        }
      }
      Prefix(items, |items|);
    }

    method AddCode(p: ProductId, value: string, pin: string) returns (r: Result<CodeId, CodeError>)
      requires Valid()
      modifies db`codes, db`stock
      ensures Valid()
      ensures r.Ok? <==> Normalize(value) != "" && Normalize(value) !in Values(old(db.codes), p)
      ensures r.Ok? ==> r.value !in old(db.codes)
                        && db.codes == old(db.codes)[r.value := Row(p, Normalize(value), Normalize(pin), Available, None, "")]
      ensures r.Err? ==> r.error == (if Normalize(value) == "" then EmptyCode else DuplicateCode)
                         && db.codes == old(db.codes) && db.stock == old(db.stock)
    {
      var item := UploadItem(Normalize(value), Normalize(pin));
      if item.value == "" {
        return Err(EmptyCode);
      }
      r := InsertOne(p, item);
      if r.Ok? {
        InsertKeeps(old(db.codes), r.value, p, item);
        GrownElsewhere(old(db.codes), db.codes, p);
        Remirror(p);
        MirrorRestores(old(db.stock), old(db.codes), db.codes, {p});
      }
    }

    /** Only an available code may change, and never into another's value. */
    method EditCode(p: ProductId, id: CodeId, value: string, pin: string) returns (r: Result<CodeId, CodeError>)
      requires Valid()
      modifies db`codes
      ensures Valid()
      ensures r.Ok? ==> id in old(db.codes) && IsAvailable(old(db.codes)[id], p) && Normalize(value) != ""
                        && db.codes == old(db.codes)[id := old(db.codes)[id].(value := Normalize(value), pin := Normalize(pin))]
      ensures r.Err? ==> db.codes == old(db.codes)
      ensures r.Ok? <==> id in old(db.codes) && IsAvailable(old(db.codes)[id], p) && Normalize(value) != ""
                         && ValueFree(old(db.codes), p, Normalize(value), {id})
      ensures r.Err? ==> r.error in {EmptyCode, NotFound, NotAvailable, DuplicateCode}
      ensures r == Err(EmptyCode) <==> Normalize(value) == ""
      ensures r == Err(NotAvailable) <==> Normalize(value) != "" && id in db.codes && db.codes[id].product == p && old(db.codes)[id].status != Available
      ensures r == Err(DuplicateCode) <==> Normalize(value) != "" && id in db.codes && IsAvailable(old(db.codes)[id], p)
                                           && !ValueFree(old(db.codes), p, Normalize(value), {id})
    {
      if Normalize(value) == "" {
        return Err(EmptyCode);
      }
      if id !in db.codes || db.codes[id].product != p {
        return Err(NotFound);
      }
      if db.codes[id].status != Available {
        return Err(NotAvailable);
      }
      if exists other :: other in db.codes && other != id && db.codes[other].product == p && db.codes[other].value == Normalize(value) {
        return Err(DuplicateCode);
      }
      db.codes := db.codes[id := db.codes[id].(value := Normalize(value), pin := Normalize(pin))];
      assert forall q :: AvailableIds(db.codes, q) == AvailableIds(old(db.codes), q);
      return Ok(id);
    }

    /** Anything but a delivered code may be removed. */
    method DeleteCode(p: ProductId, id: CodeId) returns (r: Result<CodeId, CodeError>)
      requires Valid()
      modifies db`codes, db`stock
      ensures Valid()
      ensures r.Ok? ==> id in old(db.codes) && old(db.codes)[id].product == p && old(db.codes)[id].status != Delivered
                        && db.codes == old(db.codes) - {id}
      ensures r.Err? ==> db.codes == old(db.codes) && db.stock == old(db.stock)
      ensures r.Ok? <==> id in old(db.codes) && old(db.codes)[id].product == p && old(db.codes)[id].status != Delivered
      ensures r == Err(DeliveredCode) <==> id in old(db.codes) && old(db.codes)[id].product == p && old(db.codes)[id].status == Delivered
      ensures r == Err(NotFound) <==> id !in old(db.codes) || old(db.codes)[id].product != p
    {
      if id !in db.codes || db.codes[id].product != p {
        return Err(NotFound);
      }
      if db.codes[id].status == Delivered {
        return Err(DeliveredCode);
      }
      db.codes := db.codes - {id};
      assert forall q :: q != p ==> AvailableIds(db.codes, q) == AvailableIds(old(db.codes), q);
      Remirror(p);
      MirrorRestores(old(db.stock), old(db.codes), db.codes, {p});
      return Ok(id);
    }

    /** Takes one available code, found by its value, off sale. */
    method Expire(value: string, fold: char -> char) returns (r: Result<CodeId, CodeError>)
      requires Valid()
      modifies db`codes, db`stock
      ensures Valid()
      ensures r.Ok? ==> Matches(old(db.codes), value, r.value, fold) && old(db.codes)[r.value].status == Available
                        && db.codes == old(db.codes)[r.value := old(db.codes)[r.value].(status := Expired)]
      ensures r.Err? ==> db.codes == old(db.codes) && db.stock == old(db.stock)
      ensures r.Ok? ==> var v := old(db.codes)[r.value].value;
                        v == value || (|value| <= |v| && forall j :: 0 <= j < |value| ==> fold(v[|v| - |value| + j]) == fold(value[j]))
      ensures r.Err? ==> r.error == NotFound || r.error == NotAvailable
      ensures r == Err(NotFound) <==> forall id :: !Matches(old(db.codes), value, id, fold)
      ensures r == Err(NotAvailable) ==> exists id :: Matches(old(db.codes), value, id, fold) && old(db.codes)[id].status != Available
    {
      var id: CodeId;
      if exists i :: i in db.codes && db.codes[i].value == value {
        id :| id in db.codes && db.codes[id].value == value;
      } else if exists i :: i in db.codes && EndsWith(db.codes[i].value, value, fold) {
        id :| id in db.codes && EndsWith(db.codes[id].value, value, fold);
      } else {
        return Err(NotFound);
      }
      assert Matches(db.codes, value, id, fold);
      if db.codes[id].value != value {
        SuffixMatches(db.codes[id].value, value, fold);
      }
      var row := db.codes[id];
      if row.status != Available {
        return Err(NotAvailable);
      }
      db.codes := db.codes[id := row.(status := Expired)];
      assert forall q :: q != row.product ==> AvailableIds(db.codes, q) == AvailableIds(old(db.codes), q);
      Remirror(row.product);
      MirrorRestores(old(db.stock), old(db.codes), db.codes, {row.product});
      return Ok(id);
    }
  }

  function Fresh(p: ProductId, item: UploadItem): Row {
    Row(p, item.value, item.pin, Available, None, "")
  }

  /** The values a product's rows hold, whatever their status. */
  function Values(pool: Pool, p: ProductId): set<string> {
    set id | id in pool && pool[id].product == p :: pool[id].value
  }

  /** Old rows stay, and new ones are available codes of the product. */
  ghost predicate Grown(before: Pool, after: Pool, p: ProductId) {
    && (forall id :: id in before ==> id in after && after[id] == before[id])
    && (forall id :: id in after && id !in before ==> IsAvailable(after[id], p))
  }

  lemma GrownElsewhere(before: Pool, after: Pool, p: ProductId)
    requires Grown(before, after, p)
    ensures forall q :: q != p ==> AvailableIds(after, q) == AvailableIds(before, q)
  {
  }

  lemma InsertKeeps(pool: Pool, id: CodeId, p: ProductId, item: UploadItem)
    requires PoolOk(pool) && id !in pool && item.value !in Values(pool, p)
    ensures PoolOk(pool[id := Fresh(p, item)]) && Grown(pool, pool[id := Fresh(p, item)], p)
    ensures Values(pool[id := Fresh(p, item)], p) == Values(pool, p) + {item.value}
    ensures |pool[id := Fresh(p, item)]| == |pool| + 1
  {
    var after := pool[id := Fresh(p, item)];
    assert forall i :: i in pool ==> after[i] == pool[i];
    assert after[id].value == item.value;
    forall v | v in Values(pool, p)
      ensures v in Values(after, p)
    {
      var i :| i in pool && pool[i].product == p && pool[i].value == v;
      assert after[i].value == v;
    }
    forall i | i in pool
      ensures pool[i].product == p ==> pool[i].value in Values(pool, p)
    {
    }
  }

  /** A batch is in: the product has its values besides the old ones, and the counts add up. */
  ghost predicate Stored(before: Pool, after: Pool, p: ProductId, items: seq<UploadItem>, inserted: nat, duplicates: nat) {
    && PoolOk(after) && Grown(before, after, p)
    && Values(after, p) == Values(before, p) + BatchValues(items)
    && inserted == |after| - |before|
    && inserted + duplicates == NonEmpty(items)
  }

  /** Every new row carries the value and the pin of one entry. */
  predicate FromBatch(before: Pool, after: Pool, items: seq<UploadItem>) {
    forall id :: id in after && id !in before ==> exists i :: 0 <= i < |items| && items[i].value == after[id].value && items[i].pin == after[id].pin
  }

  lemma FromOneMore(a: Pool, b: Pool, c: Pool, items: seq<UploadItem>, item: UploadItem)
    requires FromBatch(a, b, items) && (forall id :: id in b ==> id in c && c[id] == b[id])
    requires forall id :: id in c && id !in b ==> c[id].value == item.value && c[id].pin == item.pin
    ensures FromBatch(a, c, items + [item])
  {
    var all := items + [item];
    forall id | id in c && id !in a
      ensures exists i :: 0 <= i < |all| && all[i].value == c[id].value && all[i].pin == c[id].pin
    {
      if id in b {
        var i :| 0 <= i < |items| && items[i].value == b[id].value && items[i].pin == b[id].pin;
        assert all[i] == items[i];
      } else {
        assert all[|items|] == item;
      }
    }
  }

  lemma StoredOneMore(a: Pool, b: Pool, c: Pool, p: ProductId, items: seq<UploadItem>, i: nat, inserted: nat, duplicates: nat, added: bool)
    requires i < |items| && Stored(a, b, p, items[..i], inserted, duplicates)
    requires PoolOk(c) && Grown(b, c, p) && |c| == |b| + if added then 1 else 0
    requires Values(c, p) == Values(b, p) + if items[i].value != "" then {items[i].value} else {}
    requires added ==> items[i].value != ""
    ensures Stored(a, c, p, items[..i + 1], inserted + (if added then 1 else 0),
                   duplicates + (if items[i].value != "" && !added then 1 else 0))
  {
    Prefix(items, i);
    BatchStep(items[..i], items[i]);
    GrownTwice(a, b, c, p);
  }

  lemma GrownTwice(a: Pool, b: Pool, c: Pool, p: ProductId)
    requires Grown(a, b, p) && Grown(b, c, p)
    ensures Grown(a, c, p)
  {
  }

  /** A batch with spaces stripped and blank values dropped. */
  function Normalized(items: seq<UploadItem>): seq<UploadItem> {
    if items == [] then []
    else
      var last := items[|items| - 1];
      var item := UploadItem(Normalize(last.value), Normalize(last.pin));
      Normalized(items[..|items| - 1]) + if item.value == "" then [] else [item]
  }

  /** The blank entries of a batch. */
  function BlankItems(items: seq<UploadItem>): set<nat> {
    set i: nat | i < |items| && Normalize(items[i].value) == ""
  }

  lemma BlankOneMore(items: seq<UploadItem>, item: UploadItem)
    ensures |BlankItems(items + [item])| == |BlankItems(items)| + if Normalize(item.value) == "" then 1 else 0
  {
    assert BlankItems(items + [item]) == BlankItems(items) + if Normalize(item.value) == "" then {|items|} else {};
  }

  /** Some entry of the batch is this value, spaces stripped. */
  predicate Supplies(items: seq<UploadItem>, v: string) {
    v != "" && exists i :: 0 <= i < |items| && Normalize(items[i].value) == v
  }

  lemma SuppliesGrow(items: seq<UploadItem>, item: UploadItem, v: string)
    ensures Supplies(items + [item], v) <==> Supplies(items, v) || (v != "" && Normalize(item.value) == v)
  {
    var all := items + [item];
    assert all[|items|] == item;
    if i :| 0 <= i < |items| && Normalize(items[i].value) == v {
      assert all[i] == items[i];
    }
  }

  /** A batch's values, told by its entries. */
  lemma {:induction false} BatchTold(items: seq<UploadItem>, v: string)
    ensures v in BatchValues(Normalized(items)) <==> Supplies(items, v)
  {
    if items != [] {
      var front, last := items[..|items| - 1], items[|items| - 1];
      BatchTold(front, v);
      NormalizedStep(front, last, v);
      SuppliesGrow(front, last, v);
      assert items == front + [last];
    }
  }

  lemma NormalizedStep(items: seq<UploadItem>, last: UploadItem, v: string)
    ensures v in BatchValues(Normalized(items + [last])) <==>
            v in BatchValues(Normalized(items)) || (v != "" && Normalize(last.value) == v)
  {
    var item := UploadItem(Normalize(last.value), Normalize(last.pin));
    var all := items + [last];
    assert all[..|all| - 1] == items;
    if item.value == "" {
      assert Normalized(all) == Normalized(items);
    } else {
      BatchStep(Normalized(items), item);
    }
  }

  /** Each entry of the normalized batch comes from one of the batch. */
  lemma {:induction false} NormalizedFrom(items: seq<UploadItem>, j: nat) returns (i: nat)
    requires j < |Normalized(items)|
    ensures i < |items|
    ensures Normalized(items)[j] == UploadItem(Normalize(items[i].value), Normalize(items[i].pin))
  {
    var last := |items| - 1;
    if j < |Normalized(items[..last])| {
      i := NormalizedFrom(items[..last], j);
    } else {
      i := last;
    }
  }

  function BatchValues(items: seq<UploadItem>): set<string> {
    set i | 0 <= i < |items| && items[i].value != "" :: items[i].value
  }

  function NonEmpty(items: seq<UploadItem>): nat {
    if items == [] then 0
    else NonEmpty(items[..|items| - 1]) + if items[|items| - 1].value != "" then 1 else 0
  }

  lemma BatchStep(items: seq<UploadItem>, item: UploadItem)
    ensures BatchValues(items + [item]) == BatchValues(items) + if item.value != "" then {item.value} else {}
    ensures NonEmpty(items + [item]) == NonEmpty(items) + if item.value != "" then 1 else 0
  {
    var all := items + [item];
    assert all[..|all| - 1] == items;
    assert forall j :: 0 <= j < |items| ==> all[j] == items[j];
    assert all[|items|] == item;
  }

  /** Of the rows available at the start, those not yet stamped are still available, and no others. */
  lemma LeftAvailable(pool: Pool, ids: set<CodeId>, p: ProductId, o: OrderId, holder: string)
    requires ids <= AvailableIds(pool, p)
    ensures AvailableIds(StampAll(pool, ids, o, holder), p) == AvailableIds(pool, p) - ids
  {
  }
}
