/** `handler` of serverless-pro's get-order
    (serverless-pro/lib/app/stateless/src/handlers/get-order/get-order.ts):
    returns the stored item whole, or `{}` when there is none, and rethrows
    every error. */
module ProGetOrder {
  import opened Wrappers
  import opened Items
  import opened Http
  import opened OrderStore

  /** The path carries a truthy `id`. */
  predicate HasId(path: PathParameters) {
    path.Some? && "id" in path.value && path.value["id"] != ""
  }

  /** The invocation's returned response or rethrown error. */
  function Get(tableName: Option<string>, path: PathParameters, env: Env, table: Table): (r: Outcome)
    ensures !Supplied(tableName) ==> r == Threw(NoTableName)
    ensures Supplied(tableName) && !HasId(path) ==> r == Threw(NoPathId)
    ensures Supplied(tableName) && HasId(path) && env.storeDown.Some? ==>
              r == Threw(StoreUnavailable(env.storeDown.value))
    ensures r.Returned? <==> Supplied(tableName) && HasId(path) && env.storeDown.None?
    ensures r.Returned? ==>
              && r.response.statusCode == 200 && !r.response.cors
              && (path.value["id"] in table ==> r.response.body == OrderJson(table[path.value["id"]]))
              && (path.value["id"] !in table ==> r.response.body == OrderJson(map[]))
  {
    if !Supplied(tableName) then Threw(NoTableName)
    else if !HasId(path) then Threw(NoPathId)
    else if env.storeDown.Some? then Threw(StoreUnavailable(env.storeDown.value))
    else
      var id := path.value["id"];
      Returned(Response(200, OrderJson(if id in table then table[id] else map[]), false))
  }

  /** An absent order is a 200 with an empty object, not an error. */
  lemma AbsentIsEmptyObject(tableName: Option<string>, id: string, env: Env, table: Table)
    requires Supplied(tableName) && id != "" && env.storeDown.None? && id !in table
    ensures Get(tableName, Some(map["id" := id]), env, table) == Returned(Response(200, OrderJson(map[]), false))
  {
  }

  /** The handler reads the table and changes nothing. */
  method Handler(b: Backend, tableName: Option<string>, path: PathParameters, env: Env) returns (outcome: Outcome)
    requires b.Valid()
    ensures outcome == Get(tableName, path, env, b.table)
  {
    if !Supplied(tableName) { return Threw(NoTableName); }
    if !HasId(path) { return Threw(NoPathId); }
    var id := path.value["id"];
    if env.storeDown.Some? { return Threw(StoreUnavailable(env.storeDown.value)); }
    var item := b.Get(id);
    var found := if item.Some? then item.value else map[];
    return Returned(Response(200, OrderJson(found), false));
  }
}
