/** `listOrdersHandler` of serverless-stack
    (serverless-stack/lib/app/stateless/src/handlers/list-orders/list-orders.ts):
    a table scan filtered on `type === 'Orders'`, each record projected to
    the six order fields, optionally cut to the flag's limit. */
module ListOrders {
  import opened Wrappers
  import opened Items
  import opened Http
  import opened FeatureFlags
  import opened RandomErrors
  import opened OrderStore

  const SuccessMetric := "ListOrdersSuccess"
  const ErrorMetric := "ListOrdersError"

  /** `items.filter((item) => item.type === 'Orders')`. */
  function OnlyOrders(items: seq<Item>): (r: seq<Item>)
    ensures |r| <= |items|
    ensures forall x :: x in r ==> IsOrder(x)
    ensures forall x :: x in items && IsOrder(x) ==> x in r
    ensures multiset(r) <= multiset(items)
  {
    if items == [] then []
    else
      assert items == [items[0]] + items[1..];
      if IsOrder(items[0]) then [items[0]] + OnlyOrders(items[1..]) else OnlyOrders(items[1..])
  }

  /** Filtering a concatenation filters each part in turn: the kept records
      stay in scan order. */
  lemma {:induction false} OnlyOrdersAppend(a: seq<Item>, b: seq<Item>)
    ensures OnlyOrders(a + b) == OnlyOrders(a) + OnlyOrders(b)
  {
    if a == [] {
      assert a + b == b;
    } else {
      assert (a + b)[1..] == a[1..] + b;
      OnlyOrdersAppend(a[1..], b);
    }
  }

  /** `.map((item) => ({ id: item.id, ..., type: item.type }))`. */
  function ProjectAll(items: seq<Item>): (r: seq<Item>)
    ensures |r| == |items|
    ensures forall i :: 0 <= i < |items| ==> r[i] == Project(items[i])
  {
    if items == [] then [] else [Project(items[0])] + ProjectAll(items[1..])
  }

  /** The scan's records as the handler returns them before any limit. */
  function AllOrders(items: Option<seq<Item>>): seq<Item> {
    if items.None? then [] else ProjectAll(OnlyOrders(items.value))
  }

  /** The end index `slice(0, end)` uses for an array of length n: an
      undefined end is the length, a negative one counts back from the end.
      The cases follow ECMAScript's normalisation of the `end` argument of
      `Array.prototype.slice`. */
  function SliceEnd(n: nat, end: Option<int>): (k: nat)
    ensures k <= n
    ensures end.None? ==> k == n
    ensures end.Some? && end.value >= 0 ==> k == if end.value < n then end.value else n
    ensures end.Some? && end.value < 0 ==> k == if n + end.value > 0 then n + end.value else 0
  {
    match end
    case None => n
    case Some(e) =>
      if e < 0 then (if n + e > 0 then n + e else 0)
      else if e < n then e
      else n
  }

  /** The records returned: all of them, or the prefix the enabled flag allows. */
  function Listed(items: Option<seq<Item>>, flag: Flag): (r: seq<Item>)
    ensures |r| <= |AllOrders(items)| && r == AllOrders(items)[..|r|]
    ensures !flag.enabled ==> r == AllOrders(items)
    ensures flag.enabled ==> |r| == SliceEnd(|AllOrders(items)|, flag.limit)
    ensures forall x :: x in r ==> IsOrder(x) && x.Keys <= OrderFields
  {
    var orders := AllOrders(items);
    assert forall x :: x in orders ==> IsOrder(x) && x.Keys <= OrderFields by {
      if items.Some? {
        var kept := OnlyOrders(items.value);
        forall x | x in orders ensures IsOrder(x) && x.Keys <= OrderFields {
          var i :| 0 <= i < |orders| && orders[i] == x;
          assert IsOrder(kept[i]);
        }
      }
    }
    if flag.enabled then orders[..SliceEnd(|orders|, flag.limit)] else orders
  }

  /** With the flag on and a limit of N >= 0, exactly min(N, n) orders are returned. */
  lemma LimitedLength(items: Option<seq<Item>>, flag: Flag)
    requires flag.enabled && flag.limit.Some? && flag.limit.value >= 0
    ensures var n := |AllOrders(items)|;
            |Listed(items, flag)| == if flag.limit.value < n then flag.limit.value else n
  {
  }

  /** The projection of a stored Orders record that the scan returned is listed,
      unless the limit cut it off. */
  lemma {:induction false} OrderListed(items: seq<Item>, i: nat, flag: Flag)
    requires i < |items| && IsOrder(items[i])
    requires !flag.enabled
    ensures Project(items[i]) in Listed(Some(items), flag)
  {
    assert items[i] in OnlyOrders(items);
    var kept := OnlyOrders(items);
    var j :| 0 <= j < |kept| && kept[j] == items[i];
    assert ProjectAll(kept)[j] == Project(items[i]);
  }

  /** The whole invocation's response, given the scan's `Items`. */
  function List(fetched: Result<Flag, string>, randomErrorsEnabled: Option<string>, env: Env,
                items: Option<seq<Item>>): (r: Response)
    ensures r.statusCode == 200 <==>
              fetched.Success? && !Throws(randomErrorsEnabled, DefaultThreshold, env.draw) && env.storeDown.None?
    ensures r.statusCode == 200 ==> r == Response(200, OrderListJson(Listed(items, fetched.value)), true)
    ensures fetched.Failure? ==> r == Rejected(FlagsUnavailable(fetched.error))
    ensures fetched.Success? && Throws(randomErrorsEnabled, DefaultThreshold, env.draw) ==> r == Rejected(RandomError)
    ensures fetched.Success? && !Throws(randomErrorsEnabled, DefaultThreshold, env.draw) && env.storeDown.Some? ==>
              r == Rejected(StoreUnavailable(env.storeDown.value))
    ensures r.statusCode != 200 ==> r.statusCode == 400 && r.body.MessageJson?
  {
    if fetched.Failure? then Rejected(FlagsUnavailable(fetched.error))
    else if Throws(randomErrorsEnabled, DefaultThreshold, env.draw) then Rejected(RandomError)
    else if env.storeDown.Some? then Rejected(StoreUnavailable(env.storeDown.value))
    else Response(200, OrderListJson(Listed(items, fetched.value)), true)
  }

  /** `keys` is an order in which a scan visits the table: every key once. */
  predicate ScanOrder(keys: seq<string>, table: Table) {
    && (forall i :: 0 <= i < |keys| ==> keys[i] in table)
    && (forall k :: k in table ==> k in keys)
    && (forall i, j :: 0 <= i < j < |keys| ==> keys[i] != keys[j])
  }

  /** The records a scan visiting `keys` returns. */
  function Scan(table: Table, keys: seq<string>): (items: seq<Item>)
    requires forall i :: 0 <= i < |keys| ==> keys[i] in table
    ensures |items| == |keys|
    ensures forall i :: 0 <= i < |keys| ==> items[i] == table[keys[i]]
  {
    seq(|keys|, i requires 0 <= i < |keys| => table[keys[i]])
  }

  /** The handler. It only reads the table; `orders` is cut in place when the
      flag is on. */
  method ListOrdersHandler(b: Backend, scanKeys: seq<string>, fetched: Result<Flag, string>,
                           randomErrorsEnabled: Option<string>, env: Env) returns (response: Response)
    requires b.Valid() && ScanOrder(scanKeys, b.table)
    modifies b`metrics
    ensures response == List(fetched, randomErrorsEnabled, env, Some(Scan(b.table, scanKeys)))
    ensures b.metrics == old(b.metrics) + [Counter(response, 200, SuccessMetric, ErrorMetric)]
  {
    if fetched.Failure? {
      b.Emit(ErrorMetric);
      return Rejected(FlagsUnavailable(fetched.error));
    }
    var flag := fetched.value;
    if Throws(randomErrorsEnabled, DefaultThreshold, env.draw) {
      b.Emit(ErrorMetric);
      return Rejected(RandomError);
    }
    if env.storeDown.Some? {
      b.Emit(ErrorMetric);
      return Rejected(StoreUnavailable(env.storeDown.value));
    }
    var items := Scan(b.table, scanKeys);
    var orders := ProjectAll(OnlyOrders(items));
    if flag.enabled {
      orders := orders[..SliceEnd(|orders|, flag.limit)];
    }
    b.Emit(SuccessMetric);
    response := Response(200, OrderListJson(orders), true);
  }
}
