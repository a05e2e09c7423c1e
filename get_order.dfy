/** `getOrderHandler` of serverless-stack
    (serverless-stack/lib/app/stateless/src/handlers/get-order/get-order.ts):
    a lookup by the path's id, answered with a six-field projection of the
    record, or 400 with the error's message. */
module GetOrder {
  import opened Wrappers
  import opened Items
  import opened Http
  import opened FeatureFlags
  import opened RandomErrors
  import opened OrderStore

  const SuccessMetric := "GetOrderSuccess"
  const ErrorMetric := "GetOrderError"

  /** The path, the flag fetch and the fault injector let the request reach the table. */
  predicate ReachesLookup(path: PathParameters, randomErrorsEnabled: Option<string>,
                          fetched: Result<FlagSet, string>, env: Env) {
    path.Some? && fetched.Success? && !Throws(randomErrorsEnabled, DefaultThreshold, env.draw)
  }

  /** The whole invocation's response. The fetched flags gate nothing here;
      only a failed fetch matters. */
  function Get(path: PathParameters, randomErrorsEnabled: Option<string>, fetched: Result<FlagSet, string>,
               env: Env, table: Table): (r: Response)
    ensures r.statusCode == 200 || r.statusCode == 400
    ensures path.None? ==> r == Rejected(NoPathId)
    // a failed flag fetch is reported before the fault injector runs
    ensures path.Some? && fetched.Failure? ==> r == Rejected(FlagsUnavailable(fetched.error))
    ensures path.Some? && fetched.Success? && Throws(randomErrorsEnabled, DefaultThreshold, env.draw) ==>
              r == Rejected(RandomError)
    ensures ReachesLookup(path, randomErrorsEnabled, fetched, env) &&
            ("id" !in path.value || path.value["id"] == "") ==>
              r == Rejected(KeyRejected(env.keyRejection))
    ensures ReachesLookup(path, randomErrorsEnabled, fetched, env) &&
            "id" in path.value && path.value["id"] != "" && env.storeDown.Some? ==>
              r == Rejected(StoreUnavailable(env.storeDown.value))
    ensures r.statusCode == 200 <==>
              ReachesLookup(path, randomErrorsEnabled, fetched, env) && env.storeDown.None? &&
              "id" in path.value && path.value["id"] != "" && path.value["id"] in table
    ensures r.statusCode == 200 ==>
              var item := table[path.value["id"]];
              && r.body == OrderJson(Project(item))
              && r.body.order.Keys <= OrderFields
              && (forall k :: k in r.body.order ==> r.body.order[k] == item[k])
    ensures ReachesLookup(path, randomErrorsEnabled, fetched, env) && env.storeDown.None? &&
            "id" in path.value && path.value["id"] != "" && path.value["id"] !in table ==>
              r == Rejected(OrderNotFound(path.value["id"]))
  {
    if path.None? then Rejected(NoPathId)
    else if fetched.Failure? then Rejected(FlagsUnavailable(fetched.error))
    else if Throws(randomErrorsEnabled, DefaultThreshold, env.draw) then Rejected(RandomError)
    else if "id" !in path.value || path.value["id"] == "" then Rejected(KeyRejected(env.keyRejection))
    else if env.storeDown.Some? then Rejected(StoreUnavailable(env.storeDown.value))
    else if path.value["id"] !in table then Rejected(OrderNotFound(path.value["id"]))
    else Response(200, OrderJson(Project(table[path.value["id"]])), true)
  }

  /** The handler. It may only emit a counter: the table and the bucket stay as they were. */
  method GetOrderHandler(b: Backend, path: PathParameters, randomErrorsEnabled: Option<string>,
                         fetched: Result<FlagSet, string>, env: Env) returns (response: Response)
    requires b.Valid()
    modifies b`metrics
    ensures response == Get(path, randomErrorsEnabled, fetched, env, b.table)
    ensures b.metrics == old(b.metrics) + [Counter(response, 200, SuccessMetric, ErrorMetric)]
  {
    var outcome := TryGet(b, path, randomErrorsEnabled, fetched, env);
    match outcome {
      case Success(order) =>
        b.Emit(SuccessMetric);
        response := Response(200, OrderJson(order), true);
      case Failure(f) =>
        b.Emit(ErrorMetric);
        response := Rejected(f);
    }
  }

  /** The try block: the projected order, or the error it throws. */
  method TryGet(b: Backend, path: PathParameters, randomErrorsEnabled: Option<string>,
                fetched: Result<FlagSet, string>, env: Env) returns (outcome: Result<Item, Failure>)
    requires b.Valid()
    ensures outcome.Success? ==> Get(path, randomErrorsEnabled, fetched, env, b.table) == Response(200, OrderJson(outcome.value), true)
    ensures outcome.Failure? ==> Get(path, randomErrorsEnabled, fetched, env, b.table) == Rejected(outcome.error)
  {
    if path.None? { return Failure(NoPathId); }
    if fetched.Failure? { return Failure(FlagsUnavailable(fetched.error)); }
    if Throws(randomErrorsEnabled, DefaultThreshold, env.draw) { return Failure(RandomError); }
    if "id" !in path.value || path.value["id"] == "" { return Failure(KeyRejected(env.keyRejection)); }
    var id := path.value["id"];
    if env.storeDown.Some? { return Failure(StoreUnavailable(env.storeDown.value)); }
    var item := b.Get(id);
    if item.None? { return Failure(OrderNotFound(id)); }
    return Success(Project(item.value));
  }
}
