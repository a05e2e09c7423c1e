/** How the handlers of one deployment meet through the shared table: an order
    that create accepted is then found by get and listed by list, and the
    stores the seeding custom resource writes are the ones create checks
    against. */
module OrderLifecycle {
  import opened Wrappers
  import opened Items
  import opened Http
  import opened FeatureFlags
  import opened RandomErrors
  import opened OrderStore
  import CreateOrder
  import GetOrder
  import ListOrders
  import ProCreateOrder
  import ProGetOrder
  import PopulateTable

  /** An order answered with 201 is then found by its id, projected to the
      six order fields. */
  lemma CreatedOrderIsFound(body: RequestBody, cfg: CreateOrder.Config, fetched: Result<FlagSet, string>,
                            env: Env, table: Table, archive: Archive,
                            enabled: Option<string>, later: Result<FlagSet, string>, laterEnv: Env)
    requires WellKeyed(table)
    requires CreateOrder.Create(body, cfg, fetched, env, table, archive).result.statusCode == 201
    requires later.Success? && !Throws(enabled, DefaultThreshold, laterEnv.draw) && laterEnv.storeDown.None?
    ensures var order := CreateOrder.OrderOf(body, env);
            var r := GetOrder.Get(Some(map["id" := KeyOf(order)]), enabled, later, laterEnv,
                                  CreateOrder.Create(body, cfg, fetched, env, table, archive).table);
            r.statusCode == 200 && r.body == OrderJson(Project(order))
  {
    var e := CreateOrder.Create(body, cfg, fetched, env, table, archive);
    var order := CreateOrder.Admit(body, cfg, fetched, env, table).value;
    assert order == CreateOrder.OrderOf(body, env);
    assert Storable(order);
    var id := KeyOf(order);
    assert id != "";
    assert e.table[id] == order;
    var path: PathParameters := Some(map["id" := id]);
    assert GetOrder.ReachesLookup(path, enabled, later, laterEnv);
  }

  /** With the limit flag off, an order created without a `type` of its own
      appears in the next listing, whatever order the scan visits the table in. */
  lemma CreatedOrderIsListed(body: RequestBody, cfg: CreateOrder.Config, fetched: Result<FlagSet, string>,
                             env: Env, table: Table, archive: Archive, keys: seq<string>, limit: Flag)
    requires WellKeyed(table)
    requires CreateOrder.Create(body, cfg, fetched, env, table, archive).result.statusCode == 201
    requires "type" !in body.parsed.value
    requires ListOrders.ScanOrder(keys, CreateOrder.Create(body, cfg, fetched, env, table, archive).table)
    requires !limit.enabled
    ensures Project(CreateOrder.OrderOf(body, env)) in
            ListOrders.Listed(Some(ListOrders.Scan(CreateOrder.Create(body, cfg, fetched, env, table, archive).table, keys)), limit)
  {
    var e := CreateOrder.Create(body, cfg, fetched, env, table, archive);
    var order := CreateOrder.Admit(body, cfg, fetched, env, table).value;
    assert IsOrder(order);
    var id := KeyOf(order);
    assert e.table[id] == order;
    assert id in keys;
    var i :| 0 <= i < |keys| && keys[i] == id;
    var items := ListOrders.Scan(e.table, keys);
    assert items[i] == order;
    ListOrders.OrderListed(items, i, limit);
  }

  /** The serverless-pro pair: an order create returned is then returned
      whole by get, extra body members included. */
  lemma ProCreatedOrderIsFound(body: RequestBody, cfg: ProCreateOrder.Config, env: Env,
                               table: Table, archive: Archive, tableName: Option<string>, laterEnv: Env)
    requires WellKeyed(table)
    requires ProCreateOrder.Create(body, cfg, env, table, archive).result.Returned?
    requires Supplied(tableName) && laterEnv.storeDown.None?
    ensures var order := ProCreateOrder.OrderOf(body, env);
            ProGetOrder.Get(tableName, Some(map["id" := KeyOf(order)]), laterEnv,
                            ProCreateOrder.Create(body, cfg, env, table, archive).table)
            == Returned(Response(200, OrderJson(order), false))
  {
    var e := ProCreateOrder.Create(body, cfg, env, table, archive);
    var order := ProCreateOrder.Admit(body, cfg, env, table).value;
    assert Storable(order);
    var id := KeyOf(order);
    assert id != "";
    assert e.table[id] == order;
  }

  /** Before the stores are seeded, every order that gets as far as the store
      check is refused as naming an unknown store. */
  lemma UnseededTableRefusesOrders(body: RequestBody, cfg: CreateOrder.Config,
                                   fetched: Result<FlagSet, string>, env: Env)
    requires CreateOrder.ReachesStoreCheck(body, cfg, fetched, env)
    ensures CreateOrder.Admit(body, cfg, fetched, env, map[]) ==
            Failure(UnknownStore(Attr(CreateOrder.OrderOf(body, env), "storeId")))
  {
    assert !StoreListed(map[], Attr(CreateOrder.OrderOf(body, env), "storeId"));
  }

  /** After a successful seeding, an order for any of the three stores passes
      the store check. */
  lemma SeededStoresAreFound(table: Table, storeId: string)
    requires WellKeyed(table)
    requires storeId in {PopulateTable.NewcastleId, PopulateTable.LondonId, PopulateTable.ManchesterId}
    ensures FindStore(PopulateTable.Seed(table, None, {}).0, Some(Str(storeId)))
  {
    PopulateTable.SeedHoldsStores(table);
  }
}
