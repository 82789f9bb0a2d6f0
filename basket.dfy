/**
 * The basket service: CRUD on the basket table, keyed by the user name, and
 * the checkout that turns a stored basket into one order-creation event on
 * the bus and then retires the basket.
 */
module Basket {
  import opened Wrappers
  import opened Json
  import opened Store
  import opened Events
  import opened Http

  const CheckoutPath: string := "/basket/checkout"

  /** The operation the handler picks for a request. */
  datatype Action =
    | GetOne(userName: string)
    | GetAll
    | Checkout
    | Create
    | Remove(userName: string)
    | Refuse(error: Error)

  /** The handler's dispatch on the method, the user-name path parameter and the path. */
  function Route(req: Request, basketKey: string): (a: Action)
    ensures a.GetOne? <==> req.httpMethod == Some("GET") && PathParameter(req, basketKey).Some?
    ensures a.GetOne? ==> a.userName == PathParameter(req, basketKey).value
    ensures a.GetAll? <==> req.httpMethod == Some("GET") && PathParameter(req, basketKey).None?
    ensures a.Checkout? <==> req.httpMethod == Some("POST") && req.path == Some(CheckoutPath)
    ensures a.Create? <==> req.httpMethod == Some("POST") && req.path != Some(CheckoutPath)
    ensures a.Remove? <==> req.httpMethod == Some("DELETE") && PathParameter(req, basketKey).Some?
    ensures a.Remove? ==> a.userName == PathParameter(req, basketKey).value
    ensures a.Refuse? <==> req.httpMethod !in {Some("GET"), Some("POST"), Some("DELETE")}
                           || (req.httpMethod == Some("DELETE") && PathParameter(req, basketKey).None?)
    ensures a.Refuse? && req.httpMethod == Some("DELETE") ==> a.error == MissingKeyOnDelete(basketKey)
    ensures a.Refuse? && req.httpMethod != Some("DELETE") ==> a.error == UnsupportedRoute(req.httpMethod)
  {
    match req.httpMethod
    case Some("GET") =>
      (match PathParameter(req, basketKey)
       case Some(u) => GetOne(u)
       case None => GetAll)
    case Some("POST") => if req.path == Some(CheckoutPath) then Checkout else Create
    case Some("DELETE") =>
      (match PathParameter(req, basketKey)
       case Some(u) => Remove(u)
       case None => Refuse(MissingKeyOnDelete(basketKey)))
    case _ => Refuse(UnsupportedRoute(req.httpMethod))
  }

  // ---- The checkout payload ---------------------------------------------------

  /** `Decimal(str(item['price']))` for one basket item. */
  function PriceOf(item: Value): (r: Result<real, Error>)
    ensures r.Ok? <==> item.Obj? && Get(item.fields, "price").Some? && Get(item.fields, "price").value.Num?
    ensures r.Ok? ==> Get(item.fields, "price") == Some(Num(r.value))
  {
    if !item.Obj? then Err(NotADict)
    else match Get(item.fields, "price")
      case None => Err(KeyNotFound("price"))
      case Some(Num(p)) => Ok(p)
      case Some(_) => Err(BadPrice)
  }

  /** The exact sum of a sequence of prices. */
  function Sum(prices: seq<real>): real
    decreases |prices|
  {
    if prices == [] then 0.0 else Sum(prices[..|prices| - 1]) + prices[|prices| - 1]
  }

  /**
   * `sum(Decimal(str(item['price'])) for item in items)`: the first item
   * without a numeric price raises; otherwise the exact sum of the prices.
   */
  function Total(items: seq<Value>): (r: Result<real, Error>)
    ensures r.Ok? <==> forall i | 0 <= i < |items| :: PriceOf(items[i]).Ok?
    decreases |items|
  {
    if items == [] then Ok(0.0)
    else
      var n := |items| - 1;
      assert forall i | 0 <= i < n :: items[..n][i] == items[i];
      match Total(items[..n])
      case Err(e) => Err(e)
      case Ok(t) =>
        match PriceOf(items[n])
        case Err(e) => Err(e)
        case Ok(p) => Ok(t + p)
  }

  /** The prices of items that all have one. */
  function Prices(items: seq<Value>): (ps: seq<real>)
    requires forall i | 0 <= i < |items| :: PriceOf(items[i]).Ok?
    ensures |ps| == |items|
  {
    seq(|items|, i requires 0 <= i < |items| => PriceOf(items[i]).value)
  }

  /** A total that succeeds is the exact sum of the items' prices. */
  lemma {:induction false} TotalIsSum(items: seq<Value>)
    requires Total(items).Ok?
    ensures Total(items).value == Sum(Prices(items))
    decreases |items|
  {
    if items != [] {
      var n := |items| - 1;
      assert forall i | 0 <= i < n :: items[..n][i] == items[i];
      TotalIsSum(items[..n]);
      assert Prices(items)[..n] == Prices(items[..n]);
    }
  }

  /** The sum over two lists of items is the sum of their sums; a failure in either fails the whole. */
  lemma {:induction false} TotalConcat(a: seq<Value>, b: seq<Value>)
    ensures Total(a + b).Ok? <==> Total(a).Ok? && Total(b).Ok?
    ensures Total(a + b).Ok? ==> Total(a + b).value == Total(a).value + Total(b).value
    decreases |b|
  {
    if b == [] {
      assert a + b == a;
    } else {
      var n := |b| - 1;
      assert (a + b)[..|a| + n] == a + b[..n];
      assert (a + b)[|a| + n] == b[n];
      TotalConcat(a, b[..n]);
    }
  }

  /**
   * `prepare_order_payload`: the basket must hold a non-empty list under
   * `items`; the checkout request then gets `totalPrice` set to the sum of
   * the item prices and is overlaid with the basket (`update`), so basket
   * keys win.
   */
  function OrderPayload(request: Dict, basket: Dict): (r: Result<Dict, Error>)
    ensures r.Ok? <==> Get(basket, "items").Some? && Get(basket, "items").value.List?
                       && Get(basket, "items").value.elems != [] && Total(Get(basket, "items").value.elems).Ok?
    ensures (Get(basket, "items").None? || !Get(basket, "items").value.List?
             || Get(basket, "items").value.elems == []) ==> r == Err(InvalidItems)
  {
    match Get(basket, "items")
    case Some(List(items)) =>
      if items == [] then Err(InvalidItems)
      else
        (match Total(items)
         case Err(e) => Err(e)
         case Ok(t) => Ok(Merged(Set(request, "totalPrice", Num(t)), basket)))
    case _ => Err(InvalidItems)
  }

  /**
   * In the payload every basket key carries the basket's value, `totalPrice`
   * carries the computed total unless the basket has one, and every other key
   * carries the checkout request's value.
   */
  lemma PayloadFields(request: Dict, basket: Dict, k: string)
    requires Distinct(basket)
    requires OrderPayload(request, basket).Ok?
    ensures var payload := OrderPayload(request, basket).value;
            var total := Total(Get(basket, "items").value.elems).value;
            Get(payload, k) ==
              if k in Keys(basket) then Get(basket, k)
              else if k == "totalPrice" then Some(Num(total))
              else Get(request, k)
  {
    var total := Total(Get(basket, "items").value.elems).value;
    MergedGet(Set(request, "totalPrice", Num(total)), basket, k);
  }

  /** The payload's keys: the request's, then `totalPrice` if new, then the basket's new keys. */
  lemma PayloadKeys(request: Dict, basket: Dict)
    requires OrderPayload(request, basket).Ok?
    ensures var withTotal := if "totalPrice" in Keys(request) then Keys(request) else Keys(request) + ["totalPrice"];
            Keys(OrderPayload(request, basket).value) == withTotal + NewKeys(withTotal, basket)
  {
    var total := Total(Get(basket, "items").value.elems).value;
    SetKeys(request, "totalPrice", Num(total));
    MergedKeys(Set(request, "totalPrice", Num(total)), basket);
  }

  /** The entry `publish_checkout_basket_event` hands to `put_events`. */
  function CheckoutEntry(payload: Dict): (e: Entry)
    ensures MatchesCheckoutRule(e) && e.detail == Obj(payload) && e.resources == []
  {
    Entry(CheckoutSource, [], Obj(payload), CheckoutDetailType, BusName)
  }

  // ---- Checkout ---------------------------------------------------------------

  /**
   * The user name a checkout request names: the request (`{}` when the body
   * key is absent) must be truthy, and so must its user-name entry.
   */
  function CheckoutUser(req: Request, basketKey: string): (r: Result<(Dict, Value), Error>)
    ensures r.Ok? <==> req.body.Parsed? && req.body.value.Obj? && Get(req.body.value.fields, basketKey).Some?
                       && Truthy(Get(req.body.value.fields, basketKey).value)
    ensures r.Ok? ==> r.value == (req.body.value.fields, Get(req.body.value.fields, basketKey).value)
    ensures req.body.NoBody? ==> r == Err(MissingUserName(basketKey))
    ensures req.body.Parsed? && req.body.value.Obj? && !r.Ok? ==> r == Err(MissingUserName(basketKey))
  {
    var request := match req.body
      case NoBody => Ok(Obj([]))
      case BadJson => Err(MalformedJson)
      case Parsed(v) => Ok(v);
    match request
    case Err(e) => Err(e)
    case Ok(v) =>
      if !Truthy(v) then Err(MissingUserName(basketKey))
      else if !v.Obj? then Err(NotADict)
      else match Get(v.fields, basketKey)
        case Some(u) => if Truthy(u) then Ok((v.fields, u)) else Err(MissingUserName(basketKey))
        case None => Err(MissingUserName(basketKey))
  }

  /** `get_basket` on the table's contents: the stored basket, or `{}`; a key that is not a non-empty string is refused. */
  function BasketOf(items: map<string, Dict>, user: Value): (r: Result<Dict, Error>)
    ensures r.Ok? <==> ValidKey(user)
    ensures r.Ok? ==> r.value == if user.s in items then items[user.s] else []
  {
    if !ValidKey(user) then Err(StoreRejected(BadKey))
    else if user.s in items then Ok(items[user.s]) else Ok([])
  }

  /**
   * Everything checkout decides before it publishes: the user, and the
   * payload of the event, or the error that stops it.
   */
  function CheckoutPlan(req: Request, basketKey: string, items: map<string, Dict>): (r: Result<(string, Dict), Error>)
    ensures r.Ok? <==> var u := CheckoutUser(req, basketKey);
                       && u.Ok? && ValidKey(u.value.1) && u.value.1.s in items && items[u.value.1.s] != []
                       && OrderPayload(u.value.0, items[u.value.1.s]).Ok?
    ensures r.Ok? ==> r.value.0 in items && items[r.value.0] != []
    ensures r.Ok? ==> CheckoutUser(req, basketKey).Ok? && CheckoutUser(req, basketKey).value.1 == Str(r.value.0)
    ensures r.Ok? ==> OrderPayload(CheckoutUser(req, basketKey).value.0, items[r.value.0]) == Ok(r.value.1)
  {
    match CheckoutUser(req, basketKey)
    case Err(e) => Err(e)
    case Ok((request, user)) =>
      match BasketOf(items, user)
      case Err(e) => Err(e)
      case Ok(basket) =>
        if basket == [] then Err(NoBasket(user))
        else match OrderPayload(request, basket)
          case Err(e) => Err(e)
          case Ok(payload) => Ok((user.s, payload))
  }

  /** A checkout request without a truthy user name fails before the table is read. */
  lemma CheckoutNeedsUser(req: Request, basketKey: string, items: map<string, Dict>)
    requires req.body.Parsed? ==> req.body.value.Obj?
    requires !(req.body.Parsed? && Get(req.body.value.fields, basketKey).Some?
               && Truthy(Get(req.body.value.fields, basketKey).value))
    ensures CheckoutPlan(req, basketKey, items) == Err(if req.body.BadJson? then MalformedJson else MissingUserName(basketKey))
  {
  }

  /** Checkout for a user with no stored basket fails with `NoBasket`. */
  lemma CheckoutNeedsBasket(req: Request, basketKey: string, items: map<string, Dict>)
    requires CheckoutUser(req, basketKey).Ok?
    requires var user := CheckoutUser(req, basketKey).value.1; ValidKey(user) && user.s !in items
    ensures CheckoutPlan(req, basketKey, items) == Err(NoBasket(CheckoutUser(req, basketKey).value.1))
  {
  }

  /** The table's `get_item` as `get_basket` calls it. */
  method GetBasket(baskets: Table<string, Dict>, user: Value) returns (r: Result<Dict, Error>)
    ensures r == BasketOf(baskets.items, user)
  {
    if !ValidKey(user) {
      return Err(StoreRejected(BadKey));
    }
    var found := baskets.Get(user.s);
    r := Ok(if found.Some? then found.value else []);
  }

  /**
   * `checkout_basket`: validate, read the basket, prepare the payload,
   * publish one event, and only then delete the basket. When the plan fails
   * or the publish call raises, neither the table nor the bus changes. When
   * the publish call returns, the bus has taken in at most the one entry;
   * the basket is then gone, whether or not the entry was accepted, unless
   * the delete itself raises, which leaves the basket stored next to an
   * event that may already be on the bus.
   */
  method CheckoutBasket(req: Request, basketKey: string, baskets: Table<string, Dict>, bus: EventBus)
    returns (r: Result<Reply, Error>)
    modifies baskets, bus
    ensures var plan := CheckoutPlan(req, basketKey, old(baskets.items));
      && (plan.Err? ==> r == Err(plan.error) && baskets.items == old(baskets.items) && bus.log == old(bus.log))
      && (plan.Ok? && r.Err? ==>
            || (r == Err(PublishFailed) && baskets.items == old(baskets.items) && bus.log == old(bus.log))
            || (r == Err(StoreUnavailable) && baskets.items == old(baskets.items)
                && (bus.log == old(bus.log) || bus.log == old(bus.log) + [CheckoutEntry(plan.value.1)])))
      && (r.Ok? ==> plan.Ok? && r.value.Published?
                    && |r.value.result.results| == 1
                    && r.value.result.failedEntryCount == Failures(r.value.result.results)
                    && bus.log == old(bus.log) + Delivered([CheckoutEntry(plan.value.1)], r.value.result.results)
                    && baskets.items == old(baskets.items) - {plan.value.0})
  {
    var user := CheckoutUser(req, basketKey);
    if user.Err? {
      return Err(user.error);
    }
    var (request, userName) := user.value;
    var basket := GetBasket(baskets, userName);
    if basket.Err? {
      return Err(basket.error);
    }
    if basket.value == [] {
      return Err(NoBasket(userName));
    }
    var payload := OrderPayload(request, basket.value);
    if payload.Err? {
      return Err(payload.error);
    }
    var published := bus.PutEvents([CheckoutEntry(payload.value)]);
    if published.None? {
      return Err(PublishFailed);
    }
    var deleteRaises: bool :| true;
    if deleteRaises {
      SingleEntry(CheckoutEntry(payload.value), published.value);
      return Err(StoreUnavailable);
    }
    baskets.Delete(userName.s);
    r := Ok(Published(published.value));
  }

  /**
   * The checkout of a published basket, end to end: when the bus accepts the
   * entry, the checkout rule hands exactly that payload to its target.
   */
  lemma CheckoutReachesTarget(log: seq<Entry>, payload: Dict, res: PutEventsResult)
    requires |res.results| == 1 && res.failedEntryCount == Failures(res.results) && res.failedEntryCount == 0
    ensures Routed(log + Delivered([CheckoutEntry(payload)], res.results)) == Routed(log) + [CheckoutEntry(payload)]
  {
    SingleEntry(CheckoutEntry(payload), res);
    RoutedAppend(log, CheckoutEntry(payload));
  }

  // ---- The other operations -------------------------------------------------

  /** `create_basket`: the decoded body, stored whole under its user name. */
  function Created(req: Request, basketKey: string): (r: Result<(string, Dict), Error>)
    ensures r.Ok? <==> req.body.Parsed? && ItemKey(req.body.value, basketKey).Ok?
    ensures r.Ok? ==> r.value == (ItemKey(req.body.value, basketKey).value, req.body.value.fields)
  {
    match ParseBody(req)
    case Err(e) => Err(e)
    case Ok(v) =>
      match ItemKey(v, basketKey)
      case Err(e) => Err(e)
      case Ok(k) => Ok((k, v.fields))
  }

  /**
   * `handler`: dispatch, run the operation, and wrap its value or its
   * exception into the envelope. No exception escapes: every failure is a
   * 500 response.
   */
  method Handle(req: Request, basketKey: string, baskets: Table<string, Dict>, bus: EventBus)
    returns (resp: Response)
    modifies baskets, bus
    ensures resp.statusCode == 200 || resp.statusCode == 500
    ensures KeyedBy(old(baskets.items), basketKey) ==> KeyedBy(baskets.items, basketKey)
    ensures match Route(req, basketKey)
      case Refuse(e) =>
        resp == Envelope(FailureMessage, Err(e)) && baskets.items == old(baskets.items) && bus.log == old(bus.log)
      case GetOne(u) =>
        resp == Envelope(SuccessMessage("GET"), DataOf(BasketOf(old(baskets.items), Str(u))))
        && baskets.items == old(baskets.items) && bus.log == old(bus.log)
      case GetAll =>
        resp.statusCode == 200 && resp.content.Success? && resp.content.body.Data?
        && resp.content.body.value.List?
        && (exists ds :: Listing(ds, old(baskets.items), All()) && resp.content.body.value.elems == Objs(ds))
        && baskets.items == old(baskets.items) && bus.log == old(bus.log)
      case Create =>
        var c := Created(req, basketKey);
        && resp.statusCode == (if c.Ok? then 200 else 500)
        && (c.Err? ==> resp.content == Failure(FailureMessage, c.error) && baskets.items == old(baskets.items))
        && (c.Ok? ==> baskets.items == old(baskets.items)[c.value.0 := c.value.1])
        && bus.log == old(bus.log)
      case Remove(u) =>
        resp.statusCode == (if u != "" then 200 else 500)
        && baskets.items == (if u != "" then old(baskets.items) - {u} else old(baskets.items))
        && bus.log == old(bus.log)
      case Checkout =>
        var plan := CheckoutPlan(req, basketKey, old(baskets.items));
        && (plan.Err? ==> resp == Envelope(FailureMessage, Err(plan.error))
                          && baskets.items == old(baskets.items) && bus.log == old(bus.log))
        && (resp.statusCode == 200 ==>
              && plan.Ok? && baskets.items == old(baskets.items) - {plan.value.0}
              && resp.content.Success? && resp.content.body.Published?
              && |resp.content.body.result.results| == 1
              && bus.log == old(bus.log) + Delivered([CheckoutEntry(plan.value.1)], resp.content.body.result.results))
        && (plan.Ok? && resp.statusCode == 500 ==>
              || (resp.content == Failure(FailureMessage, PublishFailed)
                  && baskets.items == old(baskets.items) && bus.log == old(bus.log))
              || (resp.content == Failure(FailureMessage, StoreUnavailable) && baskets.items == old(baskets.items)
                  && (bus.log == old(bus.log) || bus.log == old(bus.log) + [CheckoutEntry(plan.value.1)])))
  {
    var r: Result<Reply, Error>;
    match Route(req, basketKey) {
    case Refuse(e) =>
      r := Err(e);
    case GetOne(u) =>
      var b := GetBasket(baskets, Str(u));
      r := DataOf(b);
    case GetAll =>
      var ds, order := baskets.Scan(All());
      r := Ok(Data(List(Objs(ds))));
    case Create =>
      var c := Created(req, basketKey);
      if c.Ok? {
        baskets.Put(c.value.0, c.value.1);
        r := Ok(WriteAck);
      } else {
        r := Err(c.error);
      }
    case Remove(u) =>
      if u == "" {
        r := Err(StoreRejected(BadKey));
      } else {
        baskets.Delete(u);
        r := Ok(WriteAck);
      }
    case Checkout =>
      r := CheckoutBasket(req, basketKey, baskets, bus);
    }
    resp := Envelope(if r.Ok? then SuccessMessage(req.httpMethod.value) else FailureMessage, r);
  }

  /**
   * `prepare_order_payload` sums `price` and ignores `qty`: items priced 10.00
   * (qty 2) and 5.50 (qty 1) make a payload with total 15.50 that keeps the items.
   */
  lemma TwoItemScenario()
    ensures var items := [Obj([Field("productId", Str("p1")), Field("price", Num(10.0)), Field("qty", Num(2.0))]),
                          Obj([Field("productId", Str("p2")), Field("price", Num(5.5)), Field("qty", Num(1.0))])];
            var basket := [Field("userName", Str("alice")), Field("items", List(items))];
            var payload := OrderPayload([Field("userName", Str("alice"))], basket);
            && payload.Ok?
            && Get(payload.value, "totalPrice") == Some(Num(15.5))
            && Get(payload.value, "items") == Some(List(items))
            && Get(payload.value, "userName") == Some(Str("alice"))
  {
    var items := [Obj([Field("productId", Str("p1")), Field("price", Num(10.0)), Field("qty", Num(2.0))]),
                  Obj([Field("productId", Str("p2")), Field("price", Num(5.5)), Field("qty", Num(1.0))])];
    var basket := [Field("userName", Str("alice")), Field("items", List(items))];
    assert Keys(basket) == ["userName", "items"];
    assert Get(basket, "items") == Some(List(items));
    assert Total(items) == Ok(15.5) by {
      assert items[..1] == [items[0]] && [items[0]][..0] == [];
    }
    PayloadFields([Field("userName", Str("alice"))], basket, "totalPrice");
    PayloadFields([Field("userName", Str("alice"))], basket, "items");
    PayloadFields([Field("userName", Str("alice"))], basket, "userName");
  }
}
