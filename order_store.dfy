/** The single DynamoDB table that holds Orders and Stores side by side,
    the S3 bucket that receives invoices, and the metrics sink, as one
    object whose fields the handlers update. The table's key schema (a string
    partition key `id`, and a secondary index on the string attribute `type`)
    is what DynamoDB enforces on every write
    (serverless-stack/lib/app/stateful/stateful-stack.ts). */
module OrderStore {
  import opened Wrappers
  import opened Items

  /** Table contents: partition key `id` to record. */
  type Table = map<string, Item>

  /** `JSON.stringify(order)`, the body of an invoice object; the text itself is not modelled. */
  datatype Invoice = Invoice(order: Item)

  /** Bucket contents: object key to object body. */
  type Archive = map<string, Invoice>

  /** What an invocation produces: its result and the contents of the table
      and the bucket afterwards. */
  datatype Effect<R> = Effect(result: R, table: Table, archive: Archive)

  /** A non-empty string attribute, the only kind DynamoDB accepts as a key. */
  predicate IsKey(v: Value) {
    v.Str? && v.s != ""
  }

  /** DynamoDB accepts the item: its `id` is a non-empty string, and its
      `type`, the secondary index's key, is one too when it is present. */
  predicate Storable(item: Item) {
    && "id" in item && IsKey(item["id"])
    && ("type" in item ==> IsKey(item["type"]))
  }

  function KeyOf(item: Item): string
    requires Storable(item)
  {
    item["id"].s
  }

  /** Every record sits under its own `id` and satisfies the key schema. */
  predicate WellKeyed(table: Table) {
    forall k :: k in table ==> Storable(table[k]) && KeyOf(table[k]) == k
  }

  predicate HasType(item: Item, t: string) {
    "type" in item && item["type"] == Str(t)
  }

  /** A record the `type = 'Stores'` index query returns. */
  predicate IsStore(item: Item) {
    HasType(item, "Stores")
  }

  /** A record that `item.type === 'Orders'` keeps. */
  predicate IsOrder(item: Item) {
    HasType(item, "Orders")
  }

  /** `stores.find((item) => item.id === storeId)` over the records that the
      Stores query returns finds something. */
  ghost predicate StoreListed(table: Table, storeId: Option<Value>) {
    exists k :: k in table && IsStore(table[k]) && Attr(table[k], "id") == storeId
  }

  /** The same search done by a key lookup: since every record sits under its
      own id, the store with a given id can only be the record at that key. */
  function FindStore(table: Table, storeId: Option<Value>): (found: bool)
    requires WellKeyed(table)
    ensures found <==> StoreListed(table, storeId)
  {
    if storeId.Some? && storeId.value.Str? && storeId.value.s in table && IsStore(table[storeId.value.s]) then
      assert Attr(table[storeId.value.s], "id") == storeId;
      true
    else
      false
  }

  /** `x` is the item of a put request DynamoDB processed. */
  ghost predicate Processed(items: seq<Item>, unprocessed: set<nat>, x: Item) {
    exists i :: 0 <= i < |items| && i !in unprocessed && items[i] == x
  }

  /** What a `BatchWriteCommand` of put requests applies: each request whose
      index DynamoDB does not report back as unprocessed, and no other. */
  function Batch(items: seq<Item>, unprocessed: set<nat>): (m: Table)
    requires forall x :: x in items ==> Storable(x)
    ensures forall k :: k in m ==> m[k] in items && KeyOf(m[k]) == k
    ensures forall k :: k in m ==> Processed(items, unprocessed, m[k])
    ensures forall i :: 0 <= i < |items| && i !in unprocessed ==> KeyOf(items[i]) in m
    decreases |items|
  {
    if items == [] then map[]
    else
      var last := |items| - 1;
      var m := Batch(items[..last], unprocessed);
      if last in unprocessed then m else m[KeyOf(items[last]) := items[last]]
  }

  /** When no request is left unprocessed, the batch applies every request. */
  lemma {:induction false} BatchAllProcessed(items: seq<Item>, unprocessed: set<nat>)
    requires forall x :: x in items ==> Storable(x)
    requires forall i :: 0 <= i < |items| ==> i !in unprocessed
    ensures Batch(items, unprocessed) == Batch(items, {})
    decreases |items|
  {
    if items != [] {
      BatchAllProcessed(items[..|items| - 1], unprocessed);
    }
  }

  /** Upserting records that sit under their own ids keeps the table well keyed. */
  lemma UpsertWellKeyed(table: Table, m: Table)
    requires WellKeyed(table)
    requires forall k :: k in m ==> Storable(m[k]) && KeyOf(m[k]) == k
    ensures WellKeyed(table + m)
  {
  }

  /** `${order.id}-invoice.txt`. */
  function InvoiceKey(id: string): string {
    id + "-invoice.txt"
  }

  /** Distinct orders get distinct invoice objects. */
  lemma InvoiceKeyInjective(a: string, b: string)
    requires InvoiceKey(a) == InvoiceKey(b)
    ensures a == b
  {
    assert |a| == |b|;
    assert a == InvoiceKey(a)[..|a|];
  }

  class Backend {
    var table: Table
    var archive: Archive
    /** The names of the counters emitted so far, in order. */
    var metrics: seq<string>

    ghost predicate Valid()
      reads this
    {
      WellKeyed(table)
    }

    constructor (initial: Table)
      requires WellKeyed(initial)
      ensures Valid()
      ensures table == initial && archive == map[] && metrics == []
    {
      table := initial;
      archive := map[];
      metrics := [];
    }

    /** `GetCommand` / `dynamoDb.get`: the record stored under `id`, if any. */
    method Get(id: string) returns (item: Option<Item>)
      requires Valid()
      ensures item.Some? <==> id in table
      ensures item.Some? ==> item.value == table[id] && Attr(item.value, "id") == Some(Str(id))
    {
      item := if id in table then Some(table[id]) else None;
    }

    /** The Stores query followed by `stores.find` on the id. */
    method HasStore(storeId: Option<Value>) returns (found: bool)
      requires Valid()
      ensures found <==> StoreListed(table, storeId)
    {
      found := FindStore(table, storeId);
    }

    /** `PutCommand`: an upsert keyed by the item's `id`. It is refused when the
        item breaks the key schema, or when `refusal` carries the error the
        table answers for another reason; a refused put writes nothing. */
    method Put(item: Item, refusal: Option<string>) returns (rejected: bool)
      requires Valid()
      modifies this`table
      ensures Valid()
      ensures rejected <==> !Storable(item) || refusal.Some?
      ensures table == if rejected then old(table) else old(table)[KeyOf(item) := item]
    {
      rejected := !Storable(item) || refusal.Some?;
      if !rejected {
        table := table[KeyOf(item) := item];
      }
    }

    /** `BatchWriteCommand`: applies the processed put requests. */
    method BatchWrite(items: seq<Item>, unprocessed: set<nat>)
      requires Valid()
      requires forall x :: x in items ==> Storable(x)
      modifies this`table
      ensures Valid()
      ensures table == old(table) + Batch(items, unprocessed)
    {
      var applied := Batch(items, unprocessed);
      assert forall k :: k in applied ==> Storable(applied[k]);
      table := table + applied;
    }

    /** `PutObjectCommand`: writes or overwrites one object. */
    method PutObject(key: string, body: Invoice)
      modifies this`archive
      ensures archive == old(archive)[key := body]
    {
      archive := archive[key := body];
    }

    /** `metrics.addMetric(name, Count, 1)`. */
    method Emit(name: string)
      modifies this`metrics
      ensures metrics == old(metrics) + [name]
    {
      metrics := metrics + [name];
    }
  }
}
