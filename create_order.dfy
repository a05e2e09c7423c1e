/** `createOrderHandler` of serverless-stack
    (serverless-stack/lib/app/stateless/src/handlers/create-order/create-order.ts):
    a fixed sequence of gates, then the order put and the invoice write; every
    thrown error becomes a 400 response carrying its message. */
module CreateOrder {
  import opened Wrappers
  import opened Items
  import opened Http
  import opened FeatureFlags
  import opened RandomErrors
  import opened OrderStore

  const PreventFlag := "opsPreventCreateOrders"
  const QuantityFlag := "releaseCheckCreateOrderQuantity"
  const SuccessMetric := "OrdersCreatedSuccess"
  const ErrorMetric := "OrderCreatedError"

  /** `config.get('tableName')`, `config.get('bucketname')` and
      `config.get('shared.randomErrorsEnabled')`. */
  datatype Config = Config(tableName: Option<string>, bucketName: Option<string>, randomErrorsEnabled: Option<string>)

  /** `{ id: uuid(), type: 'Orders', created: now, ...item }`: the body's
      members come last, so they override the three defaults. */
  function NewOrder(id: string, created: string, body: Item): (order: Item)
    ensures order.Keys == body.Keys + {"id", "type", "created"}
    ensures forall k :: k in body ==> order[k] == body[k]
    ensures "id" !in body ==> order["id"] == Str(id)
    ensures "type" !in body ==> order["type"] == Str("Orders")
    ensures "created" !in body ==> order["created"] == Str(created)
  {
    map["id" := Str(id), "type" := Str("Orders"), "created" := Str(created)] + body
  }

  /** The body is present and both the table and bucket names are supplied. */
  predicate Validated(body: RequestBody, cfg: Config) {
    body.Body? && Supplied(cfg.tableName) && Supplied(cfg.bucketName)
  }

  /** The flags were fetched and `opsPreventCreateOrders` is present and on. */
  predicate KillSwitchOn(fetched: Result<FlagSet, string>) {
    fetched.Success? && PreventFlag in fetched.value && fetched.value[PreventFlag].enabled
  }

  /** The flags were fetched and `opsPreventCreateOrders` is present and off. */
  predicate KillSwitchOff(fetched: Result<FlagSet, string>) {
    fetched.Success? && PreventFlag in fetched.value && !fetched.value[PreventFlag].enabled
  }

  /** `releaseCheckCreateOrderQuantity` is present and does not stop this order. */
  predicate WithinLimit(flags: FlagSet, order: Item) {
    QuantityFlag in flags &&
    !(flags[QuantityFlag].enabled && AtLeast(Attr(order, "quantity"), flags[QuantityFlag].limit))
  }

  /** The order this request would write, once the body has parsed. */
  function OrderOf(body: RequestBody, env: Env): Item
    requires body.Body? && body.parsed.Success?
  {
    NewOrder(env.freshId, env.now, body.parsed.value)
  }

  /** The request got past the validation, the kill switch and the fault
      injector, and its body parsed. */
  predicate Parsed(body: RequestBody, cfg: Config, fetched: Result<FlagSet, string>, env: Env) {
    && Validated(body, cfg) && KillSwitchOff(fetched)
    && !Throws(cfg.randomErrorsEnabled, DefaultThreshold, env.draw)
    && body.parsed.Success?
  }

  /** A parsed request whose quantity passes the release check, with the store service up. */
  predicate ReachesStoreCheck(body: RequestBody, cfg: Config, fetched: Result<FlagSet, string>, env: Env) {
    Parsed(body, cfg, fetched, env) && WithinLimit(fetched.value, OrderOf(body, env)) && env.storeDown.None?
  }

  /** The checks that run before the first write and the put itself, in the
      handler's order: the order that was written, or the error thrown. */
  function Admit(body: RequestBody, cfg: Config, fetched: Result<FlagSet, string>, env: Env, table: Table)
    : (r: Result<Item, Failure>)
    requires WellKeyed(table)
    ensures body.NoBody? ==> r == Failure(NoOrderSupplied)
    ensures body.Body? && !Supplied(cfg.tableName) ==> r == Failure(NoTableName)
    ensures body.Body? && Supplied(cfg.tableName) && !Supplied(cfg.bucketName) ==> r == Failure(NoBucketName)
    ensures Validated(body, cfg) && fetched.Failure? ==> r == Failure(FlagsUnavailable(fetched.error))
    ensures Validated(body, cfg) && fetched.Success? && PreventFlag !in fetched.value ==> r == Failure(FlagAbsent)
    ensures Validated(body, cfg) && KillSwitchOn(fetched) ==> r == Failure(CreationDisabled)
    ensures Validated(body, cfg) && KillSwitchOff(fetched) &&
            Throws(cfg.randomErrorsEnabled, DefaultThreshold, env.draw) ==>
              r == Failure(RandomError)
    ensures Validated(body, cfg) && KillSwitchOff(fetched) &&
            !Throws(cfg.randomErrorsEnabled, DefaultThreshold, env.draw) && body.parsed.Failure? ==>
              r == Failure(MalformedBody(body.parsed.error))
    ensures Parsed(body, cfg, fetched, env) && QuantityFlag !in fetched.value ==> r == Failure(FlagAbsent)
    ensures Parsed(body, cfg, fetched, env) && QuantityFlag in fetched.value &&
            fetched.value[QuantityFlag].enabled &&
            AtLeast(Attr(OrderOf(body, env), "quantity"), fetched.value[QuantityFlag].limit) ==>
              r == Failure(QuantityOverLimit(Attr(OrderOf(body, env), "quantity"), fetched.value[QuantityFlag].limit))
    ensures Parsed(body, cfg, fetched, env) && WithinLimit(fetched.value, OrderOf(body, env)) &&
            env.storeDown.Some? ==>
              r == Failure(StoreUnavailable(env.storeDown.value))
    ensures ReachesStoreCheck(body, cfg, fetched, env) &&
            !StoreListed(table, Attr(OrderOf(body, env), "storeId")) ==>
              r == Failure(UnknownStore(Attr(OrderOf(body, env), "storeId")))
    ensures ReachesStoreCheck(body, cfg, fetched, env) &&
            StoreListed(table, Attr(OrderOf(body, env), "storeId")) &&
            !Storable(OrderOf(body, env)) ==>
              r == Failure(KeyRejected(env.keyRejection))
    ensures ReachesStoreCheck(body, cfg, fetched, env) &&
            StoreListed(table, Attr(OrderOf(body, env), "storeId")) &&
            Storable(OrderOf(body, env)) && env.putRefused.Some? ==>
              r == Failure(PutFailed(env.putRefused.value))
    ensures r.Success? <==>
              ReachesStoreCheck(body, cfg, fetched, env) &&
              StoreListed(table, Attr(OrderOf(body, env), "storeId")) &&
              Storable(OrderOf(body, env)) && env.putRefused.None?
    ensures r.Success? ==> r.value == OrderOf(body, env)
  {
    if body.NoBody? then Failure(NoOrderSupplied)
    else if !Supplied(cfg.tableName) then Failure(NoTableName)
    else if !Supplied(cfg.bucketName) then Failure(NoBucketName)
    else if fetched.Failure? then Failure(FlagsUnavailable(fetched.error))
    else if PreventFlag !in fetched.value then Failure(FlagAbsent)
    else if fetched.value[PreventFlag].enabled then Failure(CreationDisabled)
    else if Throws(cfg.randomErrorsEnabled, DefaultThreshold, env.draw) then Failure(RandomError)
    else if body.parsed.Failure? then Failure(MalformedBody(body.parsed.error))
    else
      var flags := fetched.value;
      var order := NewOrder(env.freshId, env.now, body.parsed.value);
      var quantity := Attr(order, "quantity");
      if QuantityFlag !in flags then Failure(FlagAbsent)
      else if flags[QuantityFlag].enabled && AtLeast(quantity, flags[QuantityFlag].limit) then
        Failure(QuantityOverLimit(quantity, flags[QuantityFlag].limit))
      else if env.storeDown.Some? then Failure(StoreUnavailable(env.storeDown.value))
      else if !FindStore(table, Attr(order, "storeId")) then Failure(UnknownStore(Attr(order, "storeId")))
      else if !Storable(order) then Failure(KeyRejected(env.keyRejection))
      else if env.putRefused.Some? then Failure(PutFailed(env.putRefused.value))
      else Success(order)
  }

  /** The whole invocation: the response, the table and the bucket afterwards. */
  function Create(body: RequestBody, cfg: Config, fetched: Result<FlagSet, string>, env: Env,
                  table: Table, archive: Archive): (e: Effect<Response>)
    requires WellKeyed(table)
    ensures WellKeyed(e.table)
    ensures e.result.statusCode == 201 || e.result.statusCode == 400
    ensures Admit(body, cfg, fetched, env, table).Failure? ==>
              e.result == Rejected(Admit(body, cfg, fetched, env, table).error)
    // a rejected request writes nothing
    ensures Admit(body, cfg, fetched, env, table).Failure? ==> e.table == table && e.archive == archive
    // an admitted order is put even when the invoice write then fails
    ensures Admit(body, cfg, fetched, env, table).Success? ==>
              var order := Admit(body, cfg, fetched, env, table).value;
              e.table == table[KeyOf(order) := order] && e.table.Keys == table.Keys + {KeyOf(order)}
    // a failed invoice write answers with the blob store's error
    ensures Admit(body, cfg, fetched, env, table).Success? && env.archiveDown.Some? ==>
              e.result == Rejected(ArchiveUnavailable(env.archiveDown.value))
    ensures e.result.statusCode == 201 <==> Admit(body, cfg, fetched, env, table).Success? && env.archiveDown.None?
    ensures e.result.statusCode == 201 ==>
              var order := Admit(body, cfg, fetched, env, table).value;
              && e.result == Response(201, OrderJson(order), true)
              && e.archive == archive[InvoiceKey(KeyOf(order)) := Invoice(order)]
    ensures e.result.statusCode != 201 ==> e.archive == archive
  {
    match Admit(body, cfg, fetched, env, table)
    case Failure(f) => Effect(Rejected(f), table, archive)
    case Success(order) =>
      var written := table[KeyOf(order) := order];
      if env.archiveDown.Some? then Effect(Rejected(ArchiveUnavailable(env.archiveDown.value)), written, archive)
      else Effect(Response(201, OrderJson(order), true), written, archive[InvoiceKey(KeyOf(order)) := Invoice(order)])
  }

  /** The handler: the try block, then the success or the failure counter and response. */
  method CreateOrderHandler(b: Backend, body: RequestBody, cfg: Config, fetched: Result<FlagSet, string>, env: Env)
    returns (response: Response)
    requires b.Valid()
    modifies b
    ensures b.Valid()
    ensures var e := Create(body, cfg, fetched, env, old(b.table), old(b.archive));
            response == e.result && b.table == e.table && b.archive == e.archive
    ensures b.metrics == old(b.metrics) + [Counter(response, 201, SuccessMetric, ErrorMetric)]
  {
    var outcome := TryCreate(b, body, cfg, fetched, env);
    match outcome {
      case Success(order) =>
        b.Emit(SuccessMetric);
        response := Response(201, OrderJson(order), true);
      case Failure(f) =>
        b.Emit(ErrorMetric);
        response := Rejected(f);
    }
  }

  /** The try block: the created order, or the error it throws. */
  method TryCreate(b: Backend, body: RequestBody, cfg: Config, fetched: Result<FlagSet, string>, env: Env)
    returns (outcome: Result<Item, Failure>)
    requires b.Valid()
    modifies b`table, b`archive
    ensures b.Valid()
    ensures var e := Create(body, cfg, fetched, env, old(b.table), old(b.archive));
            b.table == e.table && b.archive == e.archive &&
            (if outcome.Success? then e.result == Response(201, OrderJson(outcome.value), true)
             else e.result == Rejected(outcome.error))
  {
    ghost var admitted := Admit(body, cfg, fetched, env, b.table);
    if body.NoBody? { return Failure(NoOrderSupplied); }
    if !Supplied(cfg.tableName) { return Failure(NoTableName); }
    if !Supplied(cfg.bucketName) { return Failure(NoBucketName); }
    if fetched.Failure? { return Failure(FlagsUnavailable(fetched.error)); }
    var flags := fetched.value;
    if PreventFlag !in flags { return Failure(FlagAbsent); }
    if flags[PreventFlag].enabled { return Failure(CreationDisabled); }
    if Throws(cfg.randomErrorsEnabled, DefaultThreshold, env.draw) { return Failure(RandomError); }
    if body.parsed.Failure? { return Failure(MalformedBody(body.parsed.error)); }
    var order := NewOrder(env.freshId, env.now, body.parsed.value);
    var quantity := Attr(order, "quantity");
    if QuantityFlag !in flags { return Failure(FlagAbsent); }
    if flags[QuantityFlag].enabled && AtLeast(quantity, flags[QuantityFlag].limit) {
      return Failure(QuantityOverLimit(quantity, flags[QuantityFlag].limit));
    }
    if env.storeDown.Some? { return Failure(StoreUnavailable(env.storeDown.value)); }
    var found := b.HasStore(Attr(order, "storeId"));
    if !found { return Failure(UnknownStore(Attr(order, "storeId"))); }
    var rejected := b.Put(order, env.putRefused);
    if rejected {
      return if !Storable(order) then Failure(KeyRejected(env.keyRejection)) else Failure(PutFailed(env.putRefused.value));
    }
    if env.archiveDown.Some? { return Failure(ArchiveUnavailable(env.archiveDown.value)); }
    b.PutObject(InvoiceKey(KeyOf(order)), Invoice(order));
    return Success(order);
  }
}
