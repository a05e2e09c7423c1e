/** `handler` of serverless-pro's create-order
    (serverless-pro/lib/app/stateless/src/handlers/create-order/create-order.ts):
    the simpler variant with no flags, no fault injector and no `created`
    timestamp, whose errors are rethrown instead of becoming responses. */
module ProCreateOrder {
  import opened Wrappers
  import opened Items
  import opened Http
  import opened OrderStore

  /** `process.env.TABLE_NAME` and `process.env.BUCKET_NAME`. */
  datatype Config = Config(tableName: Option<string>, bucketName: Option<string>)

  /** `{ id: uuid(), type: 'Orders', ...item }`: no `created`, and the body's
      members override the two defaults. */
  function NewOrder(id: string, body: Item): (order: Item)
    ensures order.Keys == body.Keys + {"id", "type"}
    ensures forall k :: k in body ==> order[k] == body[k]
    ensures "id" !in body ==> order["id"] == Str(id)
    ensures "type" !in body ==> order["type"] == Str("Orders")
    ensures "created" in order <==> "created" in body
  {
    map["id" := Str(id), "type" := Str("Orders")] + body
  }

  function OrderOf(body: RequestBody, env: Env): Item
    requires body.Body? && body.parsed.Success?
  {
    NewOrder(env.freshId, body.parsed.value)
  }

  /** Both names are supplied, the body is present and parses, and the store service is up. */
  predicate ReachesStoreCheck(body: RequestBody, cfg: Config, env: Env) {
    Supplied(cfg.tableName) && Supplied(cfg.bucketName) && body.Body? && body.parsed.Success? && env.storeDown.None?
  }

  /** The checks before the first write and the put itself, in this variant's
      order: table name, bucket name, body, store, key, put. */
  function Admit(body: RequestBody, cfg: Config, env: Env, table: Table): (r: Result<Item, Failure>)
    requires WellKeyed(table)
    ensures !Supplied(cfg.tableName) ==> r == Failure(NoTableName)
    ensures Supplied(cfg.tableName) && !Supplied(cfg.bucketName) ==> r == Failure(NoBucketName)
    ensures Supplied(cfg.tableName) && Supplied(cfg.bucketName) && body.NoBody? ==> r == Failure(NoOrderSupplied)
    ensures Supplied(cfg.tableName) && Supplied(cfg.bucketName) && body.Body? && body.parsed.Failure? ==>
              r == Failure(MalformedBody(body.parsed.error))
    ensures Supplied(cfg.tableName) && Supplied(cfg.bucketName) && body.Body? && body.parsed.Success? &&
            env.storeDown.Some? ==>
              r == Failure(StoreUnavailable(env.storeDown.value))
    ensures ReachesStoreCheck(body, cfg, env) && !StoreListed(table, Attr(OrderOf(body, env), "storeId")) ==>
              r == Failure(UnknownStore(Attr(OrderOf(body, env), "storeId")))
    ensures ReachesStoreCheck(body, cfg, env) && StoreListed(table, Attr(OrderOf(body, env), "storeId")) &&
            !Storable(OrderOf(body, env)) ==>
              r == Failure(KeyRejected(env.keyRejection))
    ensures ReachesStoreCheck(body, cfg, env) && StoreListed(table, Attr(OrderOf(body, env), "storeId")) &&
            Storable(OrderOf(body, env)) && env.putRefused.Some? ==>
              r == Failure(PutFailed(env.putRefused.value))
    ensures r.Success? <==>
              ReachesStoreCheck(body, cfg, env) &&
              StoreListed(table, Attr(OrderOf(body, env), "storeId")) &&
              Storable(OrderOf(body, env)) && env.putRefused.None?
    ensures r.Success? ==> r.value == OrderOf(body, env)
  {
    if !Supplied(cfg.tableName) then Failure(NoTableName)
    else if !Supplied(cfg.bucketName) then Failure(NoBucketName)
    else if body.NoBody? then Failure(NoOrderSupplied)
    else if body.parsed.Failure? then Failure(MalformedBody(body.parsed.error))
    else
      var order := NewOrder(env.freshId, body.parsed.value);
      if env.storeDown.Some? then Failure(StoreUnavailable(env.storeDown.value))
      else if !FindStore(table, Attr(order, "storeId")) then Failure(UnknownStore(Attr(order, "storeId")))
      else if !Storable(order) then Failure(KeyRejected(env.keyRejection))
      else if env.putRefused.Some? then Failure(PutFailed(env.putRefused.value))
      else Success(order)
  }

  /** The whole invocation: the returned response or the rethrown error, and
      the table and bucket afterwards. */
  function Create(body: RequestBody, cfg: Config, env: Env, table: Table, archive: Archive): (e: Effect<Outcome>)
    requires WellKeyed(table)
    ensures WellKeyed(e.table)
    ensures Admit(body, cfg, env, table).Failure? ==>
              e == Effect(Threw(Admit(body, cfg, env, table).error), table, archive)
    ensures Admit(body, cfg, env, table).Success? ==>
              var order := Admit(body, cfg, env, table).value;
              e.table == table[KeyOf(order) := order]
    ensures Admit(body, cfg, env, table).Success? && env.archiveDown.Some? ==>
              e.result == Threw(ArchiveUnavailable(env.archiveDown.value))
    ensures e.result.Returned? <==> Admit(body, cfg, env, table).Success? && env.archiveDown.None?
    ensures e.result.Returned? ==>
              var order := Admit(body, cfg, env, table).value;
              && e.result.response == Response(201, OrderJson(order), false)
              && e.archive == archive[InvoiceKey(KeyOf(order)) := Invoice(order)]
    ensures e.result.Threw? ==> e.archive == archive
  {
    match Admit(body, cfg, env, table)
    case Failure(f) => Effect(Threw(f), table, archive)
    case Success(order) =>
      var written := table[KeyOf(order) := order];
      if env.archiveDown.Some? then Effect(Threw(ArchiveUnavailable(env.archiveDown.value)), written, archive)
      else Effect(Returned(Response(201, OrderJson(order), false)), written,
                  archive[InvoiceKey(KeyOf(order)) := Invoice(order)])
  }

  method Handler(b: Backend, body: RequestBody, cfg: Config, env: Env) returns (outcome: Outcome)
    requires b.Valid()
    modifies b`table, b`archive
    ensures b.Valid()
    ensures Effect(outcome, b.table, b.archive) == Create(body, cfg, env, old(b.table), old(b.archive))
  {
    if !Supplied(cfg.tableName) { return Threw(NoTableName); }
    if !Supplied(cfg.bucketName) { return Threw(NoBucketName); }
    if body.NoBody? { return Threw(NoOrderSupplied); }
    if body.parsed.Failure? { return Threw(MalformedBody(body.parsed.error)); }
    var order := NewOrder(env.freshId, body.parsed.value);
    if env.storeDown.Some? { return Threw(StoreUnavailable(env.storeDown.value)); }
    var found := b.HasStore(Attr(order, "storeId"));
    if !found { return Threw(UnknownStore(Attr(order, "storeId"))); }
    var rejected := b.Put(order, env.putRefused);
    if rejected {
      return if !Storable(order) then Threw(KeyRejected(env.keyRejection)) else Threw(PutFailed(env.putRefused.value));
    }
    if env.archiveDown.Some? { return Threw(ArchiveUnavailable(env.archiveDown.value)); }
    b.PutObject(InvoiceKey(KeyOf(order)), Invoice(order));
    return Returned(Response(201, OrderJson(order), false));
  }
}
