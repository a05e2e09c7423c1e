# Order service handlers of cdk-best-practices, modelled in Dafny

The repository deploys a small order service twice: a *serverless-stack*
version and a simpler *serverless-pro* version. Both put Lambda handlers
behind API Gateway. The handlers share one DynamoDB table, keyed by `id`, that
holds `Orders` and `Stores` records, and an S3 bucket of invoices. This
project models:

- the serverless-stack handlers `createOrderHandler`, `getOrderHandler` and
  `listOrdersHandler`, and the `populate-table-cr` custom resource that
  seeds the three stores;
- the serverless-pro `handler`s for create and get, which rethrow their
  errors instead of answering 400;
- the fault injector `randomErrors`;
- the feature-flag stack's choice of configuration for a stage;
- the naming rules of the client stack and of the serverless-pro stateless
  stack.

Each handler has two parts:

- a pure specification function (`Create`, `Get`, `List`, `Handle`) that
  gives the response and the table and bucket afterwards;
- an imperative method over the class `OrderStore.Backend`. Its fields
  `table`, `archive` and `metrics` are the DynamoDB table, the S3 bucket
  and the emitted counters. The method is proved equal to the function.

The table keeps an invariant, `WellKeyed`: every record sits under its own
non-empty string `id`, and its `type`, the secondary index key, is a
non-empty string when present. This is the key schema of
serverless-stack/lib/app/stateful/stateful-stack.ts:43-55. A put that breaks
the schema is rejected, as DynamoDB rejects it.

Inputs the handlers draw from outside are parameters of the model:

- `uuid()`, the ISO timestamp and `Math.random()` (the `Env` record);
- the parsed request body (`RequestBody`);
- the outcome of the feature-flag fetch;
- the configuration values;
- whether the table or the bucket is unreachable (`storeDown` and
  `archiveDown`), and whether DynamoDB refuses an otherwise valid put, for
  example an item over 400 KB or a throttled write (`putRefused`);
- the message of the validation error DynamoDB answers when it refuses a key
  (`keyRejection`), since its wording depends on what is wrong with the key;
- which batch requests DynamoDB reports as unprocessed;
- the order in which a scan visits the table.

JSON items are `map<string, Value>`. JavaScript's rules appear where the
code depends on them:

- an object spread lets the body override the defaults (map union);
- `>=` converts both sides to numbers, and NaN compares false;
- `slice(0, limit)` counts a negative end from the back;
- `toLowerCase` is modelled on ASCII;
- `JSON.stringify` of an `Error` is `{}`.

Behaviour of the code worth noting:

- listing scans the whole table and filters on `type === 'Orders'`; it does
  not query the `recordTypeIndex` index;
- a missing order in serverless-stack's get is a 400, not a 404;
- serverless-pro's create checks the table name, then the bucket name, then
  the body. serverless-stack checks the body first;
- serverless-pro's get answers 200 with `{}` for an absent order.

## Model

| member | source | states |
|---|---|---|
| RandomErrors.Throws | serverless-stack/lib/app/stateless/src/shared/random-errors.ts:3-11 | it throws only for a draw above the threshold; with the switch undefined, exactly for such a draw |
| RandomErrors.OffNeverThrows | serverless-stack/lib/app/stateless/src/shared/random-errors.ts:7 | a switch whose lower-case form is "false" never throws, for any threshold and draw |
| RandomErrors.FalseInAnyCase | serverless-stack/lib/app/stateless/src/shared/random-errors.ts:7 | "false", "FALSE" and "False" all switch injection off |
| RandomErrors.UndefinedOrOtherEnables | serverless-stack/lib/app/stateless/src/shared/random-errors.ts:7-11 | an undefined switch, "true", "no" or "0" leaves injection on: a draw above the threshold throws |
| RandomErrors.OnThrowsAboveThreshold | serverless-stack/lib/app/stateless/src/shared/random-errors.ts:5-11 | with injection on, it throws exactly when the draw exceeds the threshold |
| RandomErrors.HighThresholdNeverThrows | serverless-stack/lib/app/stateless/src/shared/random-errors.ts:9 | a threshold of 1 or more never throws for a draw in [0, 1) |
| FeatureFlags.FlagConfigKey | serverless-stack/lib/app/feature-flags/feature-flags.ts:25-29 | the key is one of the four configuration keys; dev, staging and prod map to themselves, every other name to feature |
| FeatureFlags.FlagConfigKeyIdempotent | serverless-stack/lib/app/feature-flags/feature-flags.ts:25-29 | normalising a key a second time gives the same key |
| FeatureFlags.CaseVariantsAreFeature | serverless-stack/lib/app/feature-flags/feature-flags.ts:25-29 | the test is exact: Prod, DEV, Staging and cicd get the feature configuration |
| FeatureFlags.FlagContent | serverless-stack/lib/app/feature-flags/feature-flags.ts:41 | the content deployed is the configuration entry of the named stage, or of feature for any other stage |
| Items.StrToNumber | serverless-stack/lib/app/stateless/src/handlers/create-order/create-order.ts:110 | the empty string converts to 0, a string of decimal digits to its value |
| Items.AtLeast | serverless-stack/lib/app/stateless/src/handlers/create-order/create-order.ts:108-111 | the comparison holds only when the quantity is present and numeric and the limit is defined |
| Items.RenderValue | serverless-stack/lib/app/stateless/src/handlers/create-order/create-order.ts:113-116 | a string renders as itself, and the text of an integer converts back to the same integer |
| Items.IntToStringReadsBack | serverless-stack/lib/app/stateless/src/handlers/create-order/create-order.ts:110-116 | converting the text of any integer back to a number gives that integer, negative ones included |
| Items.AtLeastCases | serverless-stack/lib/app/stateless/src/handlers/create-order/create-order.ts:108-111 | a missing quantity or limit never reaches the limit, an object quantity (NaN) never does, and a numeric one is compared as a number |
| Items.Project | serverless-stack/lib/app/stateless/src/handlers/get-order/get-order.ts:84-91 | the projection holds exactly the item's attributes among the six order fields, with the stored values |
| OrderStore.FindStore | serverless-stack/lib/app/stateless/src/handlers/create-order/create-order.ts:122-142 | the key lookup finds a store exactly when some Stores record of the table has that id |
| OrderStore.Batch | serverless-stack/lib/app/stateless/src/handlers/populate-table-cr/populate-table-cr.ts:19-60 | a batch writes exactly the processed requests: every record it writes comes from a request not reported unprocessed and sits under its own id, and every processed request's key is present |
| OrderStore.BatchAllProcessed | serverless-stack/lib/app/stateless/src/handlers/populate-table-cr/populate-table-cr.ts:58-66 | when no request is left unprocessed, the batch applies every request |
| OrderStore.UpsertWellKeyed | serverless-stack/lib/app/stateful/stateful-stack.ts:43-55 | upserting records that sit under their own ids keeps the key schema |
| OrderStore.InvoiceKeyInjective | serverless-stack/lib/app/stateless/src/handlers/create-order/create-order.ts:157 | distinct order ids get distinct invoice object keys |
| OrderStore.Backend.constructor | serverless-stack/lib/app/stateful/stateful-stack.ts:43-55 | a backend starts from a well-keyed table with an empty bucket and no counters |
| OrderStore.Backend.Get | serverless-stack/lib/app/stateless/src/handlers/get-order/get-order.ts:71-80 | the get answers the record stored under the id, if any, and that record's id is the id asked for |
| OrderStore.Backend.HasStore | serverless-stack/lib/app/stateless/src/handlers/create-order/create-order.ts:122-140 | the Stores query and find answer whether a store with that id is listed |
| OrderStore.Backend.Put | serverless-stack/lib/app/stateless/src/handlers/create-order/create-order.ts:144-152 | the put is rejected exactly when the item breaks the key schema or DynamoDB refuses it, and then changes nothing; otherwise it upserts the item under its id |
| OrderStore.Backend.BatchWrite | serverless-stack/lib/app/stateless/src/handlers/populate-table-cr/populate-table-cr.ts:57-60 | the batch write upserts the processed requests and keeps the key schema |
| OrderStore.Backend.PutObject | serverless-stack/lib/app/stateless/src/handlers/create-order/create-order.ts:155-162 | the object write stores or overwrites one key of the bucket and leaves the rest alone |
| OrderStore.Backend.Emit | serverless-stack/lib/app/stateless/src/handlers/create-order/create-order.ts:166 | emitting a counter appends its name to the counters emitted so far |
| Http.Message | serverless-stack/lib/app/stateless/src/handlers/create-order/create-order.ts:175-176 | the message sent back for an error raised by the flag client, the body parser, DynamoDB or S3 is that error's own message |
| Http.Counter | serverless-stack/lib/app/stateless/src/handlers/create-order/create-order.ts:166-180 | a handler emits its success counter for its success status and its error counter for any other |
| CreateOrder.NewOrder | serverless-stack/lib/app/stateless/src/handlers/create-order/create-order.ts:100-105 | the order has the body's keys plus id, type and created; body values win, and absent ones default to the fresh id, "Orders" and the timestamp |
| CreateOrder.Admit | serverless-stack/lib/app/stateless/src/handlers/create-order/create-order.ts:50-142 | gates in source order, each with its error: no body, no table, no bucket, a failed flag fetch, an absent kill-switch flag, the kill switch, the fault injector, a malformed body, an absent quantity flag, the quantity limit, an unreachable table, an unknown store, a key the schema refuses, a refused put. An order is admitted and written exactly when it passes them all |
| CreateOrder.Create | serverless-stack/lib/app/stateless/src/handlers/create-order/create-order.ts:44-187 | a rejection is a 400 carrying the error's message and writes nothing; an admitted order is put even if the invoice write then fails, which answers 400 with the bucket's error; 201 exactly when admitted and the bucket is up, and then the invoice is written under id-invoice.txt |
| CreateOrder.CreateOrderHandler | serverless-stack/lib/app/stateless/src/handlers/create-order/create-order.ts:44-187 | the handler's response, table and bucket are those of Create, and it emits exactly one counter: the success one on 201, the error one otherwise |
| CreateOrder.TryCreate | serverless-stack/lib/app/stateless/src/handlers/create-order/create-order.ts:47-173 | the try block's order or thrown error is the one Create answers with, and its writes are Create's |
| GetOrder.Get | serverless-stack/lib/app/stateless/src/handlers/get-order/get-order.ts:40-116 | a missing path, a failed flag fetch (reported before the fault injector runs), an injected fault, an empty or missing id and an unreachable table are each a 400 with their own error; 200 exactly when the lookup is reached with a non-empty id that is in the table, and then the body is the record's six-field projection; a missing order is "order id ... is not found" |
| GetOrder.GetOrderHandler | serverless-stack/lib/app/stateless/src/handlers/get-order/get-order.ts:40-116 | the handler answers Get, leaves the table and bucket alone, and emits one success or error counter |
| GetOrder.TryGet | serverless-stack/lib/app/stateless/src/handlers/get-order/get-order.ts:43-101 | the try block's projected order or thrown error is the one Get answers with |
| ListOrders.OnlyOrders | serverless-stack/lib/app/stateless/src/handlers/list-orders/list-orders.ts:76 | the filter keeps exactly the Orders records, a sub-multiset of the scan |
| ListOrders.OnlyOrdersAppend | serverless-stack/lib/app/stateless/src/handlers/list-orders/list-orders.ts:76 | filtering distributes over concatenation, so scan order is kept |
| ListOrders.ProjectAll | serverless-stack/lib/app/stateless/src/handlers/list-orders/list-orders.ts:76-85 | every listed record is projected to the six order fields, position by position |
| ListOrders.SliceEnd | serverless-stack/lib/app/stateless/src/handlers/list-orders/list-orders.ts:93 | slice(0, limit) keeps min(limit, n) records, all of them for an undefined limit, and counts a negative limit from the back |
| ListOrders.Listed | serverless-stack/lib/app/stateless/src/handlers/list-orders/list-orders.ts:74-94 | the listing is a prefix of the projected Orders; all of them with the flag off, the sliced length with it on; every element is an order with only the six fields |
| ListOrders.LimitedLength | serverless-stack/lib/app/stateless/src/handlers/list-orders/list-orders.ts:89-94 | with the flag on and a non-negative limit, the listing has min(limit, n) records |
| ListOrders.OrderListed | serverless-stack/lib/app/stateless/src/handlers/list-orders/list-orders.ts:74-94 | with the flag off, the projection of every scanned order appears in the listing |
| ListOrders.List | serverless-stack/lib/app/stateless/src/handlers/list-orders/list-orders.ts:63-118 | 200 exactly when the flags were fetched, no fault was injected and the table answered, and then the body is the listing; a failed fetch, an injected fault and a failed scan are each a 400 with their own error |
| ListOrders.Scan | serverless-stack/lib/app/stateless/src/handlers/list-orders/list-orders.ts:67-72 | the scan returns the table's records in the visiting order |
| ListOrders.ListOrdersHandler | serverless-stack/lib/app/stateless/src/handlers/list-orders/list-orders.ts:36-119 | the handler answers List for a full scan, cutting the orders in place when the flag is on, changes no data and emits one counter |
| PopulateTable.StoreRecord | serverless-stack/lib/app/stateless/src/handlers/populate-table-cr/populate-table-cr.ts:25-30 | a store record has exactly the attributes id, storeCode, storeName and type; it is a well-keyed Stores record under its id with the given code and name |
| PopulateTable.SeedStores | serverless-stack/lib/app/stateless/src/handlers/populate-table-cr/populate-table-cr.ts:19-55 | the seed is three Stores records with exactly the four attributes: the fixed ids, codes NEW, LON and MAN, and names Newcastle, London and Manchester |
| PopulateTable.SeedBatch | serverless-stack/lib/app/stateless/src/handlers/populate-table-cr/populate-table-cr.ts:19-60 | the seed batch writes exactly the three store ids, each to its record |
| PopulateTable.Reason | serverless-stack/lib/app/stateless/src/handlers/populate-table-cr/populate-table-cr.ts:137 | the FAILED reason of the handler's own errors is "{}", and an SDK error keeps its own serialisation |
| PopulateTable.Leftover | serverless-stack/lib/app/stateless/src/handlers/populate-table-cr/populate-table-cr.ts:58-66 | nothing is left over exactly when none of the three requests is reported unprocessed |
| PopulateTable.Seed | serverless-stack/lib/app/stateless/src/handlers/populate-table-cr/populate-table-cr.ts:19-71 | a failing table changes nothing; with the table up the new table is the old one plus the processed requests, so a partial batch leaves the processed ones written; any unprocessed request is an error, and a fully processed batch upserts the three stores |
| PopulateTable.SeedIdempotent | serverless-stack/lib/app/stateless/src/handlers/populate-table-cr/populate-table-cr.ts:26-50 | seeding twice leaves the same table as seeding once |
| PopulateTable.SeedHoldsStores | serverless-stack/lib/app/stateless/src/handlers/populate-table-cr/populate-table-cr.ts:19-55 | after seeding, the three ids hold the three Stores records, whatever the table held before |
| PopulateTable.Handle | serverless-stack/lib/app/stateless/src/handlers/populate-table-cr/populate-table-cr.ts:73-144 | every response carries OrdersConfigData and echoes the event's ids; a missing table name or unknown request type is FAILED with reason "{}", and a failed seed is FAILED with the Reason of its error; Delete writes nothing and succeeds; Create and Update leave the table Seed gives, also when they fail, and succeed exactly when the seed is fully processed |
| PopulateTable.SeedData | serverless-stack/lib/app/stateless/src/handlers/populate-table-cr/populate-table-cr.ts:19-71 | seedData's writes and error are those of Seed |
| PopulateTable.Handler | serverless-stack/lib/app/stateless/src/handlers/populate-table-cr/populate-table-cr.ts:73-144 | the handler's response and table are those of Handle |
| ProCreateOrder.NewOrder | serverless-pro/lib/app/stateless/src/handlers/create-order/create-order.ts:52-56 | the order has the body's keys plus id and type, and created only if the body has it; body values win |
| ProCreateOrder.Admit | serverless-pro/lib/app/stateless/src/handlers/create-order/create-order.ts:36-80 | gates in order, each with its error: no table name, no bucket, no body, a malformed body, an unreachable table, an unknown store, a key the schema refuses, a refused put. Admitted and written exactly when it passes them all |
| ProCreateOrder.Create | serverless-pro/lib/app/stateless/src/handlers/create-order/create-order.ts:26-113 | a rejection is thrown and writes nothing; an admitted order is put even if the invoice write then throws the bucket's error; the response is returned exactly when admitted and the bucket is up, and it is 201 with the order and no headers |
| ProCreateOrder.Handler | serverless-pro/lib/app/stateless/src/handlers/create-order/create-order.ts:26-113 | the handler's outcome, table and bucket are those of Create |
| ProGetOrder.Get | serverless-pro/lib/app/stateless/src/handlers/get-order/get-order.ts:16-58 | a missing table name or id is thrown, and so is the error of an unreachable table; otherwise 200 with the whole stored item, or {} when there is none, and no headers |
| ProGetOrder.AbsentIsEmptyObject | serverless-pro/lib/app/stateless/src/handlers/get-order/get-order.ts:47-53 | an absent order answers 200 with an empty object, not an error |
| ProGetOrder.Handler | serverless-pro/lib/app/stateless/src/handlers/get-order/get-order.ts:16-58 | the handler answers Get and changes nothing |
| OrderLifecycle.CreatedOrderIsFound | serverless-stack/lib/app/stateless/src/handlers/get-order/get-order.ts:71-101 | after a 201 from create, get of the order's id answers 200 with the order's projection; in the model, where every read sees the latest write |
| OrderLifecycle.CreatedOrderIsListed | serverless-stack/lib/app/stateless/src/handlers/list-orders/list-orders.ts:72-94 | after a 201 from create of a body with no type of its own, the next listing with the limit off contains the order, whatever the scan order; in the model, where every read sees the latest write |
| OrderLifecycle.ProCreatedOrderIsFound | serverless-pro/lib/app/stateless/src/handlers/get-order/get-order.ts:47-53 | after create returns, get of the order's id returns the whole order, extra body members included; in the model, where every read sees the latest write |
| OrderLifecycle.UnseededTableRefusesOrders | serverless-stack/lib/app/stateless/src/handlers/create-order/create-order.ts:140-142 | on an empty table, every order that reaches the store check is refused as naming an unknown store |
| OrderLifecycle.SeededStoresAreFound | serverless-stack/lib/app/stateless/src/handlers/populate-table-cr/populate-table-cr.ts:26-50 | after seeding, each of the three store ids passes create's store check; in the model, where every read sees the latest write |
| ClientNaming.ApiSubDomain | serverless-stack/lib/app/client/client-stack.ts:32-35 | the API host is lower case: api. and the domain for exactly prod, otherwise api., the stage and the domain |
| ClientNaming.SubDomain | serverless-stack/lib/app/client/client-stack.ts:36-39 | the site host is lower case: the domain for exactly prod, otherwise the stage and the domain |
| ClientNaming.ApiUnderSite | serverless-stack/lib/app/client/client-stack.ts:32-39 | the API host is always api. followed by the site host |
| ClientNaming.ClientNames | serverless-stack/lib/app/client/client-stack.ts:31-123 | the stage label is the lower-cased name; the site and API hosts are SubDomain's and ApiSubDomain's; the runtime api URL is https://api. plus the site host; the alias record is the site host plus a dot; the export name is the label plus -route53-client-url |
| ClientNaming.CaseVariantOfProdKeepsPrefix | serverless-stack/lib/app/client/client-stack.ts:31-39 | Prod is labelled prod but still gets the prod. prefix, because the prod test runs before lower-casing |
| ClientNaming.SubDomainsSeparateStages | serverless-stack/lib/app/client/client-stack.ts:36-39 | stages whose lower-case names differ get different sites, and only prod gets the bare domain |
| StatelessNaming.WebsiteSubDomain | serverless-pro/lib/app/stateless/stateless-stack.ts:84-87 | the website origin is lower case: https:// and the domain for exactly prod, otherwise https://, the stage and the domain |
| StatelessNaming.HostedZoneDomain | serverless-pro/lib/app/stateless/stateless-stack.ts:91-95 | the hosted zone is the domain for prod, otherwise the stage as given, a dot and the domain as given; neither part is lower-cased, but its lower-case form is the client's site host |
| StatelessNaming.HealthCheckUrl | serverless-pro/lib/app/stateless/stateless-stack.ts:467-475 | the health-check URL is the API host, api. plus the site host, followed by /health-checks |
| StatelessNaming.SitesAgreeWithClient | serverless-pro/lib/app/stateless/stateless-stack.ts:80-87 | the website origin is https:// plus the client stack's site host, and the API host matches the client's runtime api URL |
| StatelessNaming.HostedZoneKeepsCase | serverless-pro/lib/app/stateless/stateless-stack.ts:91-95 | for stage Dev, the hosted zone keeps the capital while the site host drops it |
| StatelessNaming.CanariesEnabled | serverless-pro/lib/app/stateless/stateless-stack.ts:319 | canaries are on only for an exact lower-case stage name, so a case variant such as Prod has none |
| StatelessNaming.CanariesOnlyInStagingAndProd | serverless-pro/lib/app/stateless/stateless-stack.ts:319 | canaries, topics and alarms exist exactly for staging and prod; not for feature, dev, cicd or Prod |

## Left out

- AWS SDK clients, middy middleware and the Powertools logger, tracer and metrics. The table and bucket are maps, and the metrics are a list of counter names.
- `getFeatureFlags`, `headers`, `config.get` and the shared types. Their files are not part of this model, so the flag fetch and the configuration values are parameters. A fetch failure is one error carrying a message.
- ListOrders.List: the flags fetched for the single list flag are treated as that flag, as the cast at serverless-stack/lib/app/stateless/src/handlers/list-orders/list-orders.ts:57 does.
- `uuid()`, `new Date().toISOString()`, `Math.random()` and `JSON.parse` are inputs. JSON text is not modelled: bodies are response values, not strings. The parse error's message is a parameter.
- Items.StrToNumber: converts only the empty string, decimal digits and a leading minus. A leading `+`, fractions, exponents, whitespace, the binary, octal and hexadecimal literals (`0b`, `0o`, `0x`) and Infinity are NaN here, although JavaScript converts them; numbers are integers.
- Text.Lower: lower-cases ASCII only, not the rest of Unicode.
- Items.RenderValue renders numbers as integers, always in plain digits. JavaScript writes fractions with a decimal point and integers of magnitude 1e21 or more in exponent form (`1e+21`). The message `order quantity ... is greater than limit ...` is exact only for integer quantities below that size.
- A JSON body that is not an object, such as an array or a number, is not modelled. The body is taken as an object or a parse failure.
- DynamoDB pagination and the 1 MB page limit, both for the scan of the listing and for the Stores query of create: each returns all its records at once. The scan's visiting order is a parameter.
- DynamoDB's read consistency. The gets, the scan and the Stores query on the secondary index are eventually consistent reads, and the secondary index only offers those. The model treats the table as one map that every read sees up to date. So the OrderLifecycle lemmas hold in the model only: the program does not promise that a get right after a 201 answers 200.
- OrderStore.Batch: a batch whose requests repeat a key is refused whole by DynamoDB. That case is not modelled; the seed's three ids are distinct.
- The Stores query is modelled as a lookup of the store id among the Stores records. This is the same answer because every record sits under its own id.
- The uuid prefix that populate-table-cr writes into its logs and into the unknown-RequestType message. That message is never returned, because `JSON.stringify` of an `Error` is `{}`.
- Every CDK construct and stack body except the naming expressions: API Gateway, CloudFront, Route53, ACM, SNS, Synthetics, CodeDeploy, AppConfig resources, IAM and cdk-nag. These are declarations with no logic to verify.
- The pipelines' stage-name derivation. It depends on an external `pascalCase`.
- The health-check handlers, which return a constant 200, and the client's bare `fetch` of its configuration.
- Concurrency between invocations. Every invocation is modelled as running alone against the table.
