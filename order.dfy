/**
 * The order service: one function that either creates an order from an
 * event's `detail` (its asynchronous path) or answers an API request (its
 * synchronous path), chosen by the event's `detail-type` field.
 */
module Order {
  import opened Wrappers
  import opened Json
  import opened Store
  import opened Events
  import opened Http

  /**
   * What the function is invoked with: the event's `detail-type` and
   * `detail` fields (`None` when absent, `Some(Null)` when null), and the
   * proxy-request fields the synchronous path reads.
   */
  datatype Invocation = Invocation(detailType: Option<Value>, detail: Option<Value>, request: Request)

  /** The handler's two paths. */
  datatype Path = Creation(detail: Value) | Query(request: Request)

  /** How an invocation ends: a response returned, `None` returned, or an exception raised. */
  datatype Outcome = Returned(response: Response) | ReturnedNone | Raised(error: Error)

  /** An order's key: the user name (partition key) and the order date (sort key). */
  datatype OrderKey = OrderKey(userName: string, orderDate: string)

  const SyncMessage: string := "Successfully finished operation"

  /** The attribute `create_order` stamps. */
  const OrderDate: string := "orderDate"

  /**
   * The handler's test `not event.get('detail-type')`: an invocation without
   * a truthy `detail-type` creates an order from its `detail` (`{}` when
   * absent); every other invocation is answered as an API request.
   */
  function Route(inv: Invocation): (p: Path)
    ensures p.Creation? <==> inv.detailType.None? || !Truthy(inv.detailType.value)
    ensures p.Creation? ==> p.detail == if inv.detail.Some? then inv.detail.value else Obj([])
    ensures p.Query? ==> p.request == inv.request
  {
    if inv.detailType.None? || !Truthy(inv.detailType.value) then
      Creation(if inv.detail.Some? then inv.detail.value else Obj([]))
    else Query(inv.request)
  }

  // ---- Creation -------------------------------------------------------------

  /** `put_item` on the order table: both key attributes must be non-empty strings. */
  function OrderItemKey(d: Dict, userKey: string, dateKey: string): (r: Result<OrderKey, Error>)
    ensures r.Ok? <==> Get(d, userKey).Some? && ValidKey(Get(d, userKey).value)
                       && Get(d, dateKey).Some? && ValidKey(Get(d, dateKey).value)
    ensures r.Ok? ==> Get(d, userKey) == Some(Str(r.value.userName))
                      && Get(d, dateKey) == Some(Str(r.value.orderDate))
  {
    match (Get(d, userKey), Get(d, dateKey))
    case (Some(u), Some(t)) =>
      if ValidKey(u) && ValidKey(t) then Ok(OrderKey(u.s, t.s)) else Err(StoreRejected(BadKey))
    case _ => Err(StoreRejected(BadKey))
  }

  /**
   * `create_order`: the detail with `orderDate` overwritten by the timestamp
   * `now`, every other field as it came, and the key it is stored under.
   */
  function Stamped(detail: Value, now: string, userKey: string, dateKey: string): (r: Result<(OrderKey, Dict), Error>)
    ensures r.Ok? <==> detail.Obj? && OrderItemKey(Set(detail.fields, OrderDate, Str(now)), userKey, dateKey).Ok?
    ensures !detail.Obj? ==> r == Err(NotADict)
    ensures r.Ok? ==> Get(r.value.1, OrderDate) == Some(Str(now))
    ensures r.Ok? ==> forall k | k != OrderDate :: Get(r.value.1, k) == Get(detail.fields, k)
    ensures r.Ok? ==> Get(r.value.1, userKey) == Some(Str(r.value.0.userName))
                      && Get(r.value.1, dateKey) == Some(Str(r.value.0.orderDate))
  {
    if !detail.Obj? then Err(NotADict)
    else
      var d := Set(detail.fields, OrderDate, Str(now));
      match OrderItemKey(d, userKey, dateKey)
      case Err(e) => Err(e)
      case Ok(key) => Ok((key, d))
  }

  /** Stamping ignores any client-supplied `orderDate`: two details that differ only there give the same order. */
  lemma StampOverridesClientDate(fields: Dict, v: Value, now: string, userKey: string, dateKey: string)
    ensures Stamped(Obj(Set(fields, OrderDate, v)), now, userKey, dateKey) == Stamped(Obj(fields), now, userKey, dateKey)
  {
    SetTwice(fields, OrderDate, v, Str(now));
  }

  /** Assigning a key twice is assigning it the second value. */
  lemma {:induction false} SetTwice(d: Dict, k: string, v: Value, w: Value)
    ensures Set(Set(d, k, v), k, w) == Set(d, k, w)
  {
    if d != [] && d[0].key != k {
      var r := Set(d, k, v);
      assert r == [d[0]] + Set(d[1..], k, v);
      assert r[1..] == Set(d[1..], k, v);
      SetTwice(d[1..], k, v, w);
    }
  }

  /** `create_order` against the table: store the stamped item, or change nothing. */
  method CreateOrder(detail: Value, now: string, userKey: string, dateKey: string, orders: Table<OrderKey, Dict>)
    returns (r: Result<Reply, Error>)
    modifies orders
    ensures var s := Stamped(detail, now, userKey, dateKey);
      && (s.Ok? ==> r == Ok(WriteAck) && orders.items == old(orders.items)[s.value.0 := s.value.1])
      && (s.Err? ==> r == Err(s.error) && orders.items == old(orders.items))
  {
    var s := Stamped(detail, now, userKey, dateKey);
    if s.Err? {
      return Err(s.error);
    }
    orders.Put(s.value.0, s.value.1);
    r := Ok(WriteAck);
  }

  // ---- Queries --------------------------------------------------------------

  /**
   * `get_order` applied to an event: both key names must be among the path
   * parameters. The lookup after the check is not part of this model and
   * ends in `OrderQueryUnavailable`. Its only caller hands it a string, not
   * an event (see `ApiGatewayInvocation`).
   */
  function GetOrder(req: Request, userKey: string, dateKey: string): (r: Result<Value, Error>)
    ensures r.Err?
    ensures r == Err(MissingOrderKeys(userKey, dateKey)) <==>
      !(PathParameter(req, userKey).Some? && PathParameter(req, dateKey).Some?)
  {
    if PathParameter(req, userKey).Some? && PathParameter(req, dateKey).Some? then Err(OrderQueryUnavailable)
    else Err(MissingOrderKeys(userKey, dateKey))
  }

  /**
   * `api_gateway_invocation`: only GET is served. A GET naming an order date
   * calls `get_order` with the date string instead of the event, so its first
   * `.get` raises before any validation; any other GET scans the table
   * (`get_all_orders`) and drops the result. The function has no `return`,
   * so whatever it computes, its value is `None`.
   */
  function ApiGatewayInvocation(req: Request, userKey: string, dateKey: string): (r: Result<Value, Error>)
    ensures r.Ok? <==> req.httpMethod == Some("GET") && PathParameter(req, dateKey).None?
    ensures r.Ok? ==> r.value == Null
    ensures req.httpMethod != Some("GET") ==> r == Err(UnsupportedRoute(req.httpMethod))
    ensures req.httpMethod == Some("GET") && PathParameter(req, dateKey).Some? ==> r == Err(NotADict)
  {
    if req.httpMethod != Some("GET") then Err(UnsupportedRoute(req.httpMethod))
    else if PathParameter(req, dateKey).Some? then Err(NotADict)
    else Ok(Null)
  }

  /** The synchronous path's envelope, whose success message does not name the method. */
  function QueryResponse(req: Request, userKey: string, dateKey: string): (resp: Response)
    ensures resp.statusCode == 200 ==> resp.content == Success(SyncMessage, Data(Null))
    ensures resp.statusCode != 200 ==> resp.statusCode == 500 && resp.content.Failure?
  {
    match ApiGatewayInvocation(req, userKey, dateKey)
    case Ok(v) => Envelope(SyncMessage, Ok(Data(v)))
    case Err(e) => Envelope(SyncMessage, Err(e))
  }

  /**
   * The work after routing: a creation returns nothing or raises, so that
   * the delivery can be retried; a query always returns a response.
   */
  method Serve(p: Path, now: string, userKey: string, dateKey: string, orders: Table<OrderKey, Dict>)
    returns (o: Outcome)
    modifies orders
    ensures p.Creation? ==> var s := Stamped(p.detail, now, userKey, dateKey);
      && (s.Ok? ==> o == ReturnedNone && orders.items == old(orders.items)[s.value.0 := s.value.1])
      && (s.Err? ==> o == Raised(s.error) && orders.items == old(orders.items))
    ensures p.Query? ==> (o == Returned(QueryResponse(p.request, userKey, dateKey))
                          && orders.items == old(orders.items))
  {
    match p {
      case Creation(detail) =>
        var r := CreateOrder(detail, now, userKey, dateKey, orders);
        o := if r.Ok? then ReturnedNone else Raised(r.error);
      case Query(req) =>
        o := Returned(QueryResponse(req, userKey, dateKey));
    }
  }

  /** `handler`, as written: route on `not detail-type`, then serve. */
  method Handle(inv: Invocation, now: string, userKey: string, dateKey: string, orders: Table<OrderKey, Dict>)
    returns (o: Outcome)
    modifies orders
    ensures Route(inv).Creation? ==> var s := Stamped(Route(inv).detail, now, userKey, dateKey);
      && (s.Ok? ==> o == ReturnedNone && orders.items == old(orders.items)[s.value.0 := s.value.1])
      && (s.Err? ==> o == Raised(s.error) && orders.items == old(orders.items))
    ensures Route(inv).Query? ==> (o == Returned(QueryResponse(inv.request, userKey, dateKey))
                                   && orders.items == old(orders.items))
  {
    o := Serve(Route(inv), now, userKey, dateKey, orders);
  }

  // ---- Deliveries from the bus ----------------------------------------------

  /** What the checkout rule invokes the function with for an entry: its detail-type and detail, and no request fields. */
  function Delivery(e: Entry): Invocation {
    Invocation(Some(Str(e.detailType)), Some(e.detail), Request(None, None, None, None, NoBody))
  }

  /**
   * As written, a delivery of a checkout entry carries the truthy
   * detail-type `CheckoutBasket`, so it is answered as an API request
   * without a method: a 500 response `Unsupported route: "None"` is returned
   * (not raised, so the delivery is not retried), and no order is created.
   */
  lemma DeliveryIsAnsweredAsQuery(e: Entry, userKey: string, dateKey: string)
    requires MatchesCheckoutRule(e)
    ensures Route(Delivery(e)).Query?
    ensures QueryResponse(Delivery(e).request, userKey, dateKey) == Response(500, Failure(FailureMessage, UnsupportedRoute(None)))
  {
  }

  /** The evident intent: the presence of a truthy detail-type marks an event delivery. */
  function IntendedRoute(inv: Invocation): (p: Path)
    ensures p.Creation? <==> inv.detailType.Some? && Truthy(inv.detailType.value)
    ensures p.Creation? ==> p.detail == if inv.detail.Some? then inv.detail.value else Obj([])
    ensures p.Query? ==> p.request == inv.request
  {
    if inv.detailType.Some? && Truthy(inv.detailType.value) then
      Creation(if inv.detail.Some? then inv.detail.value else Obj([]))
    else Query(inv.request)
  }

  /** Under the intended routing a delivery creates an order from the entry's detail, and an API request is queried. */
  lemma DeliveryCreatesOrder(e: Entry, req: Request)
    requires MatchesCheckoutRule(e)
    ensures IntendedRoute(Delivery(e)) == Creation(e.detail)
    ensures IntendedRoute(Invocation(None, None, req)) == Query(req)
  {
  }

  /** `handler` with the intended routing. */
  method HandleIntended(inv: Invocation, now: string, userKey: string, dateKey: string, orders: Table<OrderKey, Dict>)
    returns (o: Outcome)
    modifies orders
    ensures IntendedRoute(inv).Creation? ==> var s := Stamped(IntendedRoute(inv).detail, now, userKey, dateKey);
      && (s.Ok? ==> o == ReturnedNone && orders.items == old(orders.items)[s.value.0 := s.value.1])
      && (s.Err? ==> o == Raised(s.error) && orders.items == old(orders.items))
    ensures IntendedRoute(inv).Query? ==> (o == Returned(QueryResponse(inv.request, userKey, dateKey))
                                           && orders.items == old(orders.items))
  {
    o := Serve(IntendedRoute(inv), now, userKey, dateKey, orders);
  }
}
