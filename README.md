# Serverless e-commerce microservices: a Dafny model of the request handlers

The system is a small shop built from three Lambda functions behind an API
gateway, three DynamoDB tables and one EventBridge bus:

- the **product** service: create, read, search by category, update and delete products;
- the **basket** service: create, read and delete baskets keyed by user name, plus a checkout;
- the **order** service: stores orders (keyed by user name and order date) and answers order queries.

Checkout is a choreography. The basket service totals the basket and merges
it into the checkout request. It publishes one `CheckoutBasket` event with
source `com.swn.basket.checkoutbasket` on `MssEventBus`, then deletes the
basket. A bus rule hands matching events to the order function, which stamps
an `orderDate` and stores the order.

The repository carries two generations of the handlers. The current one uses
the resource-level table API (`src/`). The earlier one uses the low-level
client with typed attributes (`microservices/`). Both are modelled.

What the model is made of:

- `Json`: decoded JSON. Dicts are sequences of fields in insertion order, so `Set` and `Merged` are Python's item assignment and `dict.update`.
- `Store.Table`: a table as a class whose `items` map the methods update. `Scan` returns the items in an unspecified order, pinned down by the ghost predicate `Listing`.
- `Events.EventBus`: the bus, a class with a log. `PutEvents` either raises, leaving the log unchanged, or returns one result per entry, with only the accepted entries delivered.
- `Attributes`: the low-level `{'S': …}` / `{'N': str(…)}` typing.
- `UpdateExpression`: builds the `SET #keyI = :valueI, …` update request from a body. It is partnered by a reader of such expressions and by DynamoDB's application of them.
- `Http`: the proxy request, the exceptions, and the `{statusCode, body}` envelope.
- One module per handler: `Product`, `Basket` and `Order` for the current code, `EarlyProduct` and `EarlyBasket` for the earlier code.
- `Choreography`: what a checkout becomes once it reaches the order service.

The remaining environment becomes parameters:

- the table key names (`userName`, `orderDate`, `id`, read from the environment by the source);
- `uuid4()`;
- `datetime.now().isoformat()`;
- the table's `contains (category, :category)` filter, given as a `matches` function.

## Model

| member | source | states |
|---|---|---|
| Json.Get | src/lambda_runtimes/basket/index.py:190-191 | a dict lookup finds a value exactly when the key is among the dict's keys |
| Json.Set | src/lambda_runtimes/basket/index.py:223 | item assignment makes the key map to the new value and leaves every other key's value unchanged |
| Json.SetKeys | src/lambda_runtimes/basket/index.py:223 | assignment keeps the key order and appends a new key at the end |
| Json.MergedGet | src/lambda_runtimes/basket/index.py:224 | after `update`, keys of the overlay take the overlay's value and all others keep the original value |
| Json.MergedKeys | src/lambda_runtimes/basket/index.py:224 | after `update`, the keys are the original keys followed by the overlay's new keys, in order |
| Store.Table.Get | src/lambda_runtimes/basket/index.py:91-110 | `get_item` finds an item exactly when the key is stored, and returns that item |
| Store.Table.Put | src/lambda_runtimes/basket/index.py:129-150 | `put_item` stores the item under its key and changes nothing else |
| Store.Table.Delete | src/lambda_runtimes/basket/index.py:153-171 | `delete_item` removes the key and changes nothing else, also when the key is absent |
| Store.Table.Scan | src/lambda_runtimes/basket/index.py:113-126 | `scan` returns each stored item passing the filter exactly once, in some order of distinct keys, and nothing else |
| Store.ListingEmpty | src/lambda_runtimes/product/index.py:233-234 | a scan is empty exactly when no stored item passes the filter |
| Store.ListingSize | src/lambda_runtimes/basket/index.py:113-126 | an unfiltered scan has as many entries as the table has items |
| Attributes.Typed | microservices/lambda_runtimes/product/index.py:119 | a string becomes an `S` attribute and anything else an `N` attribute, and untyping gives back the value |
| Attributes.TypedItemOf | microservices/lambda_runtimes/product/index.py:119 | the typed item has exactly the dict's keys, and untyping each attribute gives back the dict's value |
| UpdateExpression.NatText | microservices/lambda_runtimes/product/index.py:166 | `str(n)` of a natural is a non-empty run of decimal digits |
| UpdateExpression.NatTextInjective | microservices/lambda_runtimes/product/index.py:166-168 | distinct indexes print differently, so no two `#keyI` or `:valueI` placeholders collide |
| UpdateExpression.NameMap | src/lambda_runtimes/product/index.py:195 | every `#keyI` placeholder for an index of the body maps to the I-th body key |
| UpdateExpression.ValueMap | src/lambda_runtimes/product/index.py:196 | every `:valueI` placeholder for an index of the body maps to the typed I-th body value |
| UpdateExpression.Intended | src/lambda_runtimes/product/index.py:193-196 | the assignment list the body means targets exactly the body's keys, in order |
| UpdateExpression.BuildDenotes | src/lambda_runtimes/product/index.py:193-196 | reading the built expression back gives the body's own assignments, or no readable expression for an empty body |
| UpdateExpression.ApplyTypedEffect | microservices/lambda_runtimes/product/index.py:180 | applying distinct `SET` assignments sets each target to its value and keeps every other attribute |
| UpdateExpression.ApplyStoredEffect | src/lambda_runtimes/product/index.py:204 | the same for the resource-level table, where each stored value is the typed map itself |
| UpdateExpression.UpdateSetsBodyTyped | microservices/lambda_runtimes/product/index.py:159-190 | an update built from a non-empty body with distinct keys sets each body field to its typed value and leaves other attributes unchanged |
| UpdateExpression.UpdateSetsBodyStored | src/lambda_runtimes/product/index.py:178-207 | the same for the resource-level update |
| Events.DeliveredOrFailed | src/lambda_runtimes/basket/index.py:242-252 | each entry of a `put_events` call is either delivered or counted in `FailedEntryCount` |
| Events.SingleEntry | src/lambda_runtimes/basket/index.py:242-252 | a one-entry call delivers the entry exactly when no entry failed |
| Events.Routed | src/event_bus/infrastructure.py:19-29 | the rule passes on only logged entries with the checkout source and detail-type |
| Events.RoutedAppend | src/event_bus/infrastructure.py:19-36 | appending an entry to the log appends it to the rule's output exactly when it matches |
| Events.RoutedComplete | src/event_bus/infrastructure.py:19-36 | every logged entry that matches reaches the rule's target |
| Events.EventBus.PutEvents | src/lambda_runtimes/basket/index.py:242-252 | a call either raises with the log unchanged, or returns one result per entry and appends exactly the accepted entries |
| Http.Envelope | src/lambda_runtimes/basket/index.py:57-88 | a value gives status 200 with it as `body`, an exception status 500 with its message as `errorMsg` |
| Http.PathParameter | src/lambda_runtimes/basket/index.py:38 | the parameter is found exactly when the map is present and holds the name |
| Http.PathLookup | microservices/lambda_runtimes/basket/index.py:17 | subscripting raises on a null map and on a missing name, and otherwise gives the parameter |
| Http.ParseBody | src/lambda_runtimes/basket/index.py:129-150 | `json.loads(event['body'])` succeeds exactly on a decodable body, and a missing body raises `KeyError` |
| Http.ItemKey | src/database/infrastructure.py:32-36 | a resource-level `put_item` is accepted exactly for a map whose key attribute is a non-empty string |
| Basket.Route | src/lambda_runtimes/basket/index.py:37-56 | GET reads one basket when the user-name parameter is present and scans otherwise; POST on the checkout path checks out and otherwise creates; DELETE needs the parameter; anything else is refused (each case an if-and-only-if) |
| Basket.PriceOf | src/lambda_runtimes/basket/index.py:222 | an item's price is read exactly when the item is a dict holding a numeric `price` |
| Basket.Total | src/lambda_runtimes/basket/index.py:222 | the total exists exactly when every item has a price |
| Basket.TotalIsSum | src/lambda_runtimes/basket/index.py:222 | a successful total is the exact sum of the item prices |
| Basket.TotalConcat | src/lambda_runtimes/basket/index.py:222 | the total over two item lists is the sum of their totals, and fails when either fails |
| Basket.OrderPayload | src/lambda_runtimes/basket/index.py:206-227 | a payload exists exactly for a non-empty item list whose items all have prices; a missing, non-list or empty list is `InvalidItems` |
| Basket.PayloadFields | src/lambda_runtimes/basket/index.py:222-224 | in the payload, basket keys carry the basket's values, `totalPrice` the total unless the basket has one, and other keys the request's values |
| Basket.PayloadKeys | src/lambda_runtimes/basket/index.py:223-224 | the payload's keys are the request's, then `totalPrice` if new, then the basket's new keys |
| Basket.CheckoutEntry | src/lambda_runtimes/basket/index.py:242-251 | the published entry matches the checkout rule, has no resources and carries the payload |
| Basket.CheckoutUser | src/lambda_runtimes/basket/index.py:186-191 | the request is accepted exactly when it is a dict whose user-name entry is truthy; an absent body counts as `{}` |
| Basket.BasketOf | src/lambda_runtimes/basket/index.py:91-110 | `get_basket` answers exactly for a non-empty string key, giving the stored basket or `{}` |
| Basket.CheckoutPlan | src/lambda_runtimes/basket/index.py:174-200 | a checkout is planned exactly when the request names a truthy user whose key is valid, whose stored basket is non-empty and whose payload can be prepared; the planned user is the request's own user name, and the payload is the payload of the request and that user's basket |
| Basket.CheckoutNeedsUser | src/lambda_runtimes/basket/index.py:190-191 | a request without a truthy user name fails before the table is read |
| Basket.CheckoutNeedsBasket | src/lambda_runtimes/basket/index.py:194-196 | a user without a stored basket gets `No basket found` |
| Basket.GetBasket | src/lambda_runtimes/basket/index.py:91-110 | the table read agrees with `BasketOf` on the table's contents |
| Basket.CheckoutBasket | src/lambda_runtimes/basket/index.py:174-203 | a failed plan or a raised publish changes nothing; a returned publish appends only the accepted entry to the bus and deletes the basket even when the entry was rejected; a raising delete leaves the basket stored while the entry may already be on the bus |
| Basket.CheckoutReachesTarget | src/event_bus/infrastructure.py:19-36 | an accepted checkout entry reaches the rule's target with exactly that payload |
| Basket.Created | src/lambda_runtimes/basket/index.py:129-150 | a basket is stored exactly when the body decodes to a dict with a non-empty string user name, and it is stored whole under that name |
| Basket.Handle | src/lambda_runtimes/basket/index.py:20-88 | every request gets status 200 or 500; each route has its stated effect on the table and bus; a checkout answered 200 deleted the basket, replies with the one `put_events` result and appended exactly the delivered entry to the bus; every stored basket keeps holding its own key |
| Basket.TwoItemScenario | src/lambda_runtimes/basket/index.py:206-227 | `prepare_order_payload` sums `price` and ignores `qty`: items priced 10.00 (qty 2) and 5.50 give a payload with total 15.50, the items and the user name |
| Order.Route | src/lambda_runtimes/order/index.py:30-45 | as written: an invocation creates an order exactly when its `detail-type` is absent or falsy |
| Order.OrderItemKey | src/database/infrastructure.py:45-53 | an order is accepted exactly when its user name and order date are non-empty strings |
| Order.Stamped | src/lambda_runtimes/order/index.py:113-135 | the stored order is the detail with `orderDate` set to the timestamp and every other field unchanged, keyed by its user name and that date |
| Order.StampOverridesClientDate | src/lambda_runtimes/order/index.py:125-126 | a client-supplied `orderDate` is ignored: the order is the same without it |
| Order.CreateOrder | src/lambda_runtimes/order/index.py:113-135 | the table gains exactly the stamped order, or is unchanged when it refuses it |
| Order.GetOrder | src/lambda_runtimes/order/index.py:138-168 | `get_order`, applied to an event, always raises, and it raises the missing-parameter error exactly when a key parameter is missing |
| Order.ApiGatewayInvocation | src/lambda_runtimes/order/index.py:90-110 | only GET is served; a GET naming an order date passes a string to `get_order` and raises on its first `.get`; a GET without one answers `None`; any other method is unsupported |
| Order.QueryResponse | src/lambda_runtimes/order/index.py:43-76 | the synchronous path answers 200 with `None` or 500 with an error |
| Order.Serve | src/lambda_runtimes/order/index.py:30-76 | a creation returns nothing or raises so that it can be retried; a query returns a response and leaves the table unchanged |
| Order.Handle | src/lambda_runtimes/order/index.py:16-76 | the handler as written: route on `detail-type`, then serve |
| Order.DeliveryIsAnsweredAsQuery | src/lambda_runtimes/order/index.py:30 | a checkout delivery takes the synchronous path and gets a returned 500 `Unsupported route: "None"` |
| Order.IntendedRoute | src/lambda_runtimes/order/index.py:30 | corrected routing: a truthy `detail-type` marks a bus delivery |
| Order.DeliveryCreatesOrder | src/lambda_runtimes/order/index.py:79-87 | under the corrected routing a checkout delivery creates an order from its detail, and an API request is still served as a query |
| Order.HandleIntended | src/lambda_runtimes/order/index.py:16-76 | the handler with the corrected routing |
| Product.Route | src/lambda_runtimes/product/index.py:37-58 | GET searches on non-empty query parameters, else reads one product when the id parameter is present, else scans; POST, DELETE (which needs the id) and PUT map to their operations; anything else is refused |
| Product.ProductOf | src/lambda_runtimes/product/index.py:93-112 | `get_product` answers exactly for a non-empty string id, giving the stored product or `{}` |
| Product.Created | src/lambda_runtimes/product/index.py:131-154 | a created product is the decoded body with the key set to the fresh id and every other field unchanged |
| Product.Updated | src/lambda_runtimes/product/index.py:178-207 | an accepted update decoded a dict body and names the id path parameter |
| Product.UpdateSetsFields | src/lambda_runtimes/product/index.py:193-204 | an update with a non-empty body of distinct keys, not naming the key, sets each field and keeps all other attributes |
| Product.UpdateRefused | src/lambda_runtimes/product/index.py:193-204 | an empty body or a body naming the key is refused by the table |
| Product.UpdateKeepsKey | src/lambda_runtimes/product/index.py:199-204 | an accepted update leaves the product's key attribute equal to its id |
| Product.SearchWithoutMatch | src/lambda_runtimes/product/index.py:232-234 | a category search that matches no product answers `[]` |
| Product.SearchProducts | src/lambda_runtimes/product/index.py:210-237 | a missing `category` raises; otherwise the result lists exactly the matching products |
| Product.GetProduct | src/lambda_runtimes/product/index.py:93-112 | the table read agrees with `ProductOf` |
| Product.GetAllProducts | src/lambda_runtimes/product/index.py:115-128 | the scan lists every product exactly once |
| Product.CreateProduct | src/lambda_runtimes/product/index.py:131-154 | the table gains exactly the created product, or is unchanged |
| Product.DeleteProduct | src/lambda_runtimes/product/index.py:157-175 | the table loses exactly the named product, or is unchanged on a refused key |
| Product.UpdateProduct | src/lambda_runtimes/product/index.py:178-207 | the table holds exactly the updated product, or is unchanged |
| Product.Handle | src/lambda_runtimes/product/index.py:20-90 | every request gets status 200 or 500; each route has its stated effect; a search with a category and a scan answer 200 with a listing of the matching products; every stored product keeps holding its own id |
| EarlyProduct.Route | microservices/lambda_runtimes/product/index.py:17-31 | GET searches on present (even empty) query parameters, else reads one product on present path parameters, else scans; POST, DELETE and PUT map to their operations; anything else is refused |
| EarlyProduct.ProductOf | microservices/lambda_runtimes/product/index.py:54-80 | `get_product` answers exactly for a non-empty `id` parameter, giving the typed item or `{}` |
| EarlyProduct.Created | microservices/lambda_runtimes/product/index.py:109-132 | a created item has the fresh id under the key, every other body field typed, and only storable attributes |
| EarlyProduct.CreateAcceptsScalars | microservices/lambda_runtimes/product/index.py:114-122 | a body of strings and numbers is always stored |
| EarlyProduct.Updated | microservices/lambda_runtimes/product/index.py:159-190 | an accepted update decoded a dict body and names the `id` path parameter |
| EarlyProduct.UpdateSetsFields | microservices/lambda_runtimes/product/index.py:163-180 | a non-empty body of strings and numbers with distinct keys, not naming the key, sets each field to its typed value and keeps all other attributes |
| EarlyProduct.UpdateKeepsKey | microservices/lambda_runtimes/product/index.py:170-180 | an accepted update leaves the item's key attribute equal to its id |
| EarlyProduct.SearchProducts | microservices/lambda_runtimes/product/index.py:193-219 | a missing `category` raises; otherwise the result lists exactly the matching items, `[]` when none match |
| EarlyProduct.GetProduct | microservices/lambda_runtimes/product/index.py:54-80 | the table read agrees with `ProductOf` |
| EarlyProduct.GetAllProducts | microservices/lambda_runtimes/product/index.py:83-106 | an empty table answers `{}`; otherwise the scan lists every item exactly once |
| EarlyProduct.CreateProduct | microservices/lambda_runtimes/product/index.py:109-132 | the table gains exactly the created item, or is unchanged |
| EarlyProduct.DeleteProduct | microservices/lambda_runtimes/product/index.py:135-156 | the table loses exactly the named item, or is unchanged |
| EarlyProduct.UpdateProduct | microservices/lambda_runtimes/product/index.py:159-190 | the table holds exactly the updated item, or is unchanged |
| EarlyProduct.Handle | microservices/lambda_runtimes/product/index.py:9-51 | every request gets status 200 or 500; each route has its stated effect; a search with a category and a scan of a non-empty table answer 200 with a listing of the matching items; every stored item keeps holding its own id |
| EarlyBasket.Route | microservices/lambda_runtimes/basket/index.py:15-31 | GET reads one basket on present path parameters and scans otherwise; POST on the checkout path checks out and otherwise creates; DELETE removes; anything else is refused |
| EarlyBasket.BasketFor | microservices/lambda_runtimes/basket/index.py:53-78 | `get_basket` answers exactly for a non-empty `userName` parameter, giving the basket or `{}` |
| EarlyBasket.GetAllBaskets | microservices/lambda_runtimes/basket/index.py:81-100 | an empty table answers `{}`; otherwise the scan lists every basket exactly once |
| EarlyBasket.DeleteBasket | microservices/lambda_runtimes/basket/index.py:126-146 | the table loses exactly the named basket, or is unchanged |
| EarlyBasket.Handle | microservices/lambda_runtimes/basket/index.py:7-50 | every request gets status 200 or 500; checkout answers `None` and changes nothing; a scan of a non-empty table lists every basket; every stored basket keeps holding its own key |
| Choreography.CheckoutBecomesOrder | src/lambda_runtimes/order/index.py:113-135 | with the corrected routing (and numbers decoded as Decimal), the payload prepared from a request and a stored basket becomes the order of the basket's user dated `now`, with the basket's items, the summed total and every other payload field |
| Choreography.PlanPicksStoredBasket | src/lambda_runtimes/basket/index.py:186-198 | a planned checkout names the request's own non-empty user, whose stored basket holds that name, and its payload is prepared from that basket |
| Choreography.PlannedCheckoutBecomesOrder | src/lambda_runtimes/basket/index.py:174-203 | every checkout that gets past its plan becomes, with the corrected routing (and numbers decoded as Decimal), the order of its user dated `now` carrying the basket's items |
| Choreography.CheckoutIsLostAsWritten | src/lambda_runtimes/order/index.py:30-76 | as written, the same checkout entry gets a 500 response and no order |

## Left out

- Logging, `print`, and `json.dumps` of responses: the model keeps the response as a value.
- Decimal arithmetic is exact `real` arithmetic. An `N` attribute keeps its number rather than the text `str(v)`.
- Attributes.Typed: booleans and `null` are typed `N` and then refused by the table, as in the source. Nested maps and lists are refused too. The text DynamoDB would have parsed is not modelled.
- `json.loads` is not modelled: a body is absent, undecodable or already decoded.
- Basket.PriceOf (and so Basket.Total): numeric strings (`"10.00"`) as prices are refused as `BadPrice`. The source's `Decimal(str(…))` would accept them.
- The environment (`EVENT_BUS`, `EVENT_SOURCE`, `DETAIL_TYPE`, table and key names) is fixed to the values the stacks set, or passed as parameters.
- The IAM grants, the API gateway wiring and the CDK stacks are not modelled.
- Lambda retries are not modelled. A raised creation is a `Raised` outcome.
- The SQS queue of `src/queue/infrastructure.py` is not modelled. No stack uses it.
- Order.GetOrder: models the function's own text on an event. Its only caller, `api_gateway_invocation`, passes the order-date string instead (src/lambda_runtimes/order/index.py:105), so in the running service the validation never happens and the call raises at once (Order.ApiGatewayInvocation answers `NotADict`). The lookup after validation is not modelled and ends in `OrderQueryUnavailable`. The source queries `product_table`, which does not exist in the order service's client.
- `get_all_orders` is called and its value discarded. The scan is not modelled (it cannot fail here, see Store.Table).
- Order.ApiGatewayInvocation: answers `None` on every successful GET, because the source function has no `return`.
- Http.Envelope: the traceback the earlier product handler adds as `errorStack` is dropped. The `errorMsg` kinds are kept as `Error` values, not as message text.
- Store.Table: `get_item`, `put_item`, `delete_item` and `scan` never fail for service reasons (throttling, internal errors). The exception is checkout's `delete_item`, which may raise (`StoreUnavailable`): it is the one such failure that leaves a half-done effect, an event on the bus next to a basket still stored. Elsewhere a service failure would only turn a 200 into a 500 with the table unchanged.
- Store.Table.Scan: pagination (`LastEvaluatedKey`) is not modelled. A scan returns every item.
- Product.SearchProducts and EarlyProduct.SearchProducts: the `contains` filter is a parameter. Its meaning on strings and sets is not modelled.
- `datetime.now()` and `uuid4()` are parameters. Distinct ids and increasing dates are not assumed.
- EarlyProduct.Created and EarlyProduct.Updated: the earlier product handler decodes JSON numbers as `float`, not `Decimal`. `str(v)` of a float may round. The model uses exact `real` numbers.
- Order.Stamped, Order.CreateOrder, Order.DeliveryCreatesOrder, Order.HandleIntended, Choreography.CheckoutBecomesOrder and Choreography.PlannedCheckoutBecomesOrder: the order Lambda receives the event with its numbers decoded as `float` (the handler passes no `parse_float` and never uses `Decimal`), and a resource-level `put_item` refuses every `float`. So a checkout whose payload holds a non-integer number, such as the total 15.50 of Basket.TwoItemScenario, is refused by `db.order_table.put_item` (src/lambda_runtimes/order/index.py:131) even with the corrected routing. The model keeps numbers as exact `real` values, and these members promise the order that Decimal decoding would store.
- Basket.OrderPayload, Order.Stamped and Product.Created: the source mutates the decoded dict in place (`prepare_order_payload`, `create_order`, `create_product`). The model returns the updated dict as a value; nothing else holds a reference to the dict.
- Concurrency between handler invocations is not modelled: each handler runs alone against the tables.

## Findings

| source | as written | input that shows it | evidently intended | confidence | as-written member | corrected member |
|---|---|---|---|---|---|---|
| src/lambda_runtimes/order/index.py:30 | `if not event.get('detail-type')` sends events *without* a detail-type to `create_order`, and everything else to the API path | the checkout event the bus rule delivers (src/event_bus/infrastructure.py:19-36), whose detail-type is `CheckoutBasket`: it is answered with a returned 500 `Unsupported route: "None"`, no order is stored, and the basket is already deleted | a truthy `detail-type` marks a bus delivery, which creates the order; fixing line 30 alone still fails for payloads holding non-integer numbers, because the order Lambda also needs Decimal decoding before `put_item` (see Left out) | high (not executed) | Order.DeliveryIsAnsweredAsQuery | Order.DeliveryCreatesOrder |
