/** The custom-resource handler that seeds the Store records
    (serverless-stack/lib/app/stateless/src/handlers/populate-table-cr/populate-table-cr.ts):
    `seedData` writes three fixed Stores in one batch and fails on any
    unprocessed item; `handler` seeds on Create and Update, does nothing on
    Delete, and reports every error as a FAILED response instead of throwing. */
module PopulateTable {
  import opened Wrappers
  import opened Items
  import opened OrderStore
  import Http

  const PhysicalResourceId := "OrdersConfigData"

  const NewcastleId := "59b8a675-9bb7-46c7-955d-2566edfba8ea"
  const LondonId := "4e02e8f2-c0fe-493e-b259-1047254ad969"
  const ManchesterId := "f5de2a0a-5a1d-4842-b38d-34e0fe420d33"

  /** One put request's item: a Stores record with exactly these four attributes. */
  function StoreRecord(id: string, code: string, name: string): (r: Item)
    requires id != ""
    ensures r.Keys == {"id", "storeCode", "storeName", "type"}
    ensures IsStore(r) && Storable(r) && KeyOf(r) == id
    ensures Attr(r, "storeCode") == Some(Str(code)) && Attr(r, "storeName") == Some(Str(name))
  {
    map["id" := Str(id), "storeCode" := Str(code), "storeName" := Str(name), "type" := Str("Stores")]
  }

  /** The batch's three put requests, in order. */
  function SeedStores(): (s: seq<Item>)
    ensures |s| == 3
    ensures forall x :: x in s ==> Storable(x) && IsStore(x) && x.Keys == {"id", "storeCode", "storeName", "type"}
    ensures KeyOf(s[0]) == NewcastleId && Attr(s[0], "storeCode") == Some(Str("NEW"))
    ensures Attr(s[0], "storeName") == Some(Str("Newcastle"))
    ensures KeyOf(s[1]) == LondonId && Attr(s[1], "storeCode") == Some(Str("LON"))
    ensures Attr(s[1], "storeName") == Some(Str("London"))
    ensures KeyOf(s[2]) == ManchesterId && Attr(s[2], "storeCode") == Some(Str("MAN"))
    ensures Attr(s[2], "storeName") == Some(Str("Manchester"))
  {
    [ StoreRecord(NewcastleId, "NEW", "Newcastle"),
      StoreRecord(LondonId, "LON", "London"),
      StoreRecord(ManchesterId, "MAN", "Manchester") ]
  }

  /** The full seed applied: exactly the three Stores, each under its own id. */
  lemma SeedBatch()
    ensures var m := Batch(SeedStores(), {});
            && m.Keys == {NewcastleId, LondonId, ManchesterId}
            && m[NewcastleId] == SeedStores()[0]
            && m[LondonId] == SeedStores()[1]
            && m[ManchesterId] == SeedStores()[2]
  {
    var s := SeedStores();
    assert s[..0] == [];
    assert s[..1][..0] == s[..0];
    assert s[..2][..1] == s[..1];
    assert s[..3] == s;
    assert s[..3][..2] == s[..2];
  }

  /** Why `seedData` or the handler throws. */
  datatype SeedError =
    | TableNameMissing
    | Unprocessed(indexes: set<nat>)
    | RequestTypeNotFound
    | StoreFailed(serialised: string)

  /** `JSON.stringify(error)`: an `Error`'s own properties are not enumerable,
      so the handler's own errors serialise to "{}"; the SDK's error keeps the
      serialisation the SDK gives it. The case split is the one
      `JSON.stringify` makes between the two kinds of error. */
  function Reason(e: SeedError): (r: string)
    ensures !e.StoreFailed? ==> r == "{}"
    ensures e.StoreFailed? ==> r == e.serialised
  {
    if e.StoreFailed? then e.serialised else "{}"
  }

  /** The requests of the three-item batch reported back as unprocessed. */
  function Leftover(unprocessed: set<nat>): (r: set<nat>)
    ensures r == {} <==> forall i :: 0 <= i < 3 ==> i !in unprocessed
  {
    var r := set i | i in unprocessed && i < 3;
    assert forall i :: 0 <= i < 3 && i in unprocessed ==> i in r;
    r
  }

  /** `seedData(tableName)`: the table afterwards and the error thrown, if any.
      Processed items stay written even when others are left over. */
  function Seed(table: Table, storeDown: Option<string>, unprocessed: set<nat>): (r: (Table, Option<SeedError>))
    requires WellKeyed(table)
    ensures WellKeyed(r.0)
    ensures storeDown.Some? ==> r == (table, Some(StoreFailed(storeDown.value)))
    ensures storeDown.None? && Leftover(unprocessed) == {} ==>
              r == (table + Batch(SeedStores(), {}), None)
    ensures storeDown.None? && Leftover(unprocessed) != {} ==>
              r.1 == Some(Unprocessed(Leftover(unprocessed)))
    // the processed requests stay written even when others are left over
    ensures storeDown.None? ==> r.0 == table + Batch(SeedStores(), unprocessed)
  {
    if storeDown.Some? then (table, Some(StoreFailed(storeDown.value)))
    else
      var applied := Batch(SeedStores(), unprocessed);
      UpsertWellKeyed(table, applied);
      if Leftover(unprocessed) != {} then (table + applied, Some(Unprocessed(Leftover(unprocessed))))
      else
        BatchAllProcessed(SeedStores(), unprocessed);
        (table + applied, None)
  }

  /** Seeding twice leaves the same table as seeding once: fixed ids and upserts. */
  lemma SeedIdempotent(table: Table)
    requires WellKeyed(table)
    ensures Seed(Seed(table, None, {}).0, None, {}) == Seed(table, None, {})
  {
    var m := Batch(SeedStores(), {});
    var once := Seed(table, None, {});
    assert Leftover({}) == {};
    assert once == (table + m, None);
    UpsertTwice(table, m);
  }

  /** Upserting the same records again changes nothing. */
  lemma UpsertTwice(table: Table, m: Table)
    ensures (table + m) + m == table + m
  {
  }

  /** A successful seed holds the three Stores, whatever the table held before. */
  lemma SeedHoldsStores(table: Table)
    requires WellKeyed(table)
    ensures var t := Seed(table, None, {}).0;
            && t[NewcastleId] == SeedStores()[0]
            && t[LondonId] == SeedStores()[1]
            && t[ManchesterId] == SeedStores()[2]
            && forall id :: id in {NewcastleId, LondonId, ManchesterId} ==> IsStore(t[id])
  {
    SeedBatch();
    var m := Batch(SeedStores(), {});
    var t := Seed(table, None, {}).0;
    assert t == table + m;
    assert t[NewcastleId] == m[NewcastleId] && t[LondonId] == m[LondonId] && t[ManchesterId] == m[ManchesterId];
  }

  datatype RequestType = Create | Update | Delete | Other(name: string)

  /** The fields of the CloudFormation event the handler reads. */
  datatype Event = Event(
    requestType: RequestType,
    tableName: Option<string>,
    logicalResourceId: string,
    requestId: string,
    stackId: string)

  datatype Status = SUCCESS | FAILED

  datatype CustomResourceResponse = CustomResourceResponse(
    status: Status,
    reason: string,
    logicalResourceId: string,
    physicalResourceId: string,
    requestId: string,
    stackId: string)

  function Respond(event: Event, status: Status, reason: string): CustomResourceResponse {
    CustomResourceResponse(status, reason, event.logicalResourceId, PhysicalResourceId, event.requestId, event.stackId)
  }

  /** The whole invocation: the response and the table afterwards. */
  function Handle(event: Event, table: Table, storeDown: Option<string>, unprocessed: set<nat>)
    : (r: (CustomResourceResponse, Table))
    requires WellKeyed(table)
    ensures r.0.physicalResourceId == PhysicalResourceId
    ensures r.0.logicalResourceId == event.logicalResourceId
    ensures r.0.requestId == event.requestId && r.0.stackId == event.stackId
    ensures WellKeyed(r.1)
    ensures !Http.Supplied(event.tableName) ==> r == (Respond(event, FAILED, "{}"), table)
    ensures event.requestType.Other? ==> r.0.status == FAILED && r.1 == table
    // every FAILED response carries `JSON.stringify(error)` of the error it caught
    ensures event.requestType.Other? && Http.Supplied(event.tableName) ==> r.0 == Respond(event, FAILED, "{}")
    ensures (event.requestType == Create || event.requestType == Update) && Http.Supplied(event.tableName) &&
            Seed(table, storeDown, unprocessed).1.Some? ==>
              r.0 == Respond(event, FAILED, Reason(Seed(table, storeDown, unprocessed).1.value))
    ensures event.requestType == Delete ==> r.1 == table
    ensures event.requestType == Delete && Http.Supplied(event.tableName) ==> r.0 == Respond(event, SUCCESS, "")
    ensures (event.requestType == Create || event.requestType == Update) && Http.Supplied(event.tableName) ==>
              (r.0.status == SUCCESS <==> storeDown.None? && Leftover(unprocessed) == {})
    ensures (event.requestType == Create || event.requestType == Update) && Http.Supplied(event.tableName) ==>
              r.1 == Seed(table, storeDown, unprocessed).0
    ensures r.0.status == SUCCESS && event.requestType != Delete ==>
              r == (Respond(event, SUCCESS, ""), Seed(table, None, {}).0)
  {
    if !Http.Supplied(event.tableName) then (Respond(event, FAILED, Reason(TableNameMissing)), table)
    else match event.requestType
      case Delete => (Respond(event, SUCCESS, ""), table)
      case Other(_) => (Respond(event, FAILED, Reason(RequestTypeNotFound)), table)
      case _ =>
        var seeded := Seed(table, storeDown, unprocessed);
        if seeded.1.Some? then (Respond(event, FAILED, Reason(seeded.1.value)), seeded.0)
        else (Respond(event, SUCCESS, ""), seeded.0)
  }

  /** `seedData`: one batch write, then the check on what it left unprocessed. */
  method SeedData(b: Backend, storeDown: Option<string>, unprocessed: set<nat>) returns (error: Option<SeedError>)
    requires b.Valid()
    modifies b`table
    ensures b.Valid()
    ensures (b.table, error) == Seed(old(b.table), storeDown, unprocessed)
  {
    if storeDown.Some? {
      return Some(StoreFailed(storeDown.value));
    }
    b.BatchWrite(SeedStores(), unprocessed);
    if Leftover(unprocessed) != {} {
      return Some(Unprocessed(Leftover(unprocessed)));
    }
    BatchAllProcessed(SeedStores(), unprocessed);
    return None;
  }

  /** `handler`: assigns `response` in the switch, or builds the FAILED one in the catch. */
  method Handler(b: Backend, event: Event, storeDown: Option<string>, unprocessed: set<nat>)
    returns (response: CustomResourceResponse)
    requires b.Valid()
    modifies b`table
    ensures b.Valid()
    ensures (response, b.table) == Handle(event, old(b.table), storeDown, unprocessed)
  {
    if !Http.Supplied(event.tableName) {
      return Respond(event, FAILED, Reason(TableNameMissing));
    }
    match event.requestType {
      case Create =>
        var error := SeedData(b, storeDown, unprocessed);
        if error.Some? { return Respond(event, FAILED, Reason(error.value)); }
        response := Respond(event, SUCCESS, "");
      case Update =>
        var error := SeedData(b, storeDown, unprocessed);
        if error.Some? { return Respond(event, FAILED, Reason(error.value)); }
        response := Respond(event, SUCCESS, "");
      case Delete =>
        response := Respond(event, SUCCESS, "");
      case Other(_) =>
        response := Respond(event, FAILED, Reason(RequestTypeNotFound));
    }
  }
}
